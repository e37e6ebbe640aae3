/** Undoing a scheduled decode batch after a failed cycle, and the abort of a whole
    speculative transaction. */
module Undo {
  import opened Arith
  import opened Types
  import opened Pools
  import opened Allocator
  import opened Queues
  import opened Scheduling
  import opened States
  import opened Progress
  import opened Commit
  import opened Leases
  import opened Burst
  import opened Transactions

  /** The row's table has the block that `schedule` appended for the next position. */
  predicate Appended(c: Config, s: Row)
    requires c.Valid()
  {
    |s.table| == CeilDiv(s.cached, c.blockSize) + 1
  }

  /** The last block of the table when `schedule` appended it. */
  function Suffix(c: Config, s: Row): seq<nat>
    requires c.Valid()
  {
    if Appended(c, s) then [s.table[|s.table| - 1]] else []
  }

  /** A block taken from the free list goes back to its head. */
  function Popped(p: Pool, b: nat): Pool {
    Pool(if b < |p.blocks| then p.blocks[b := p.blocks[b].(refs := 0)] else p.blocks,
         [b] + p.free, p.used - {b}, p.index)
  }

  function UndoRow(c: Config, p: Pool, s: Row): (Pool, Row)
    requires c.Valid()
  {
    if Appended(c, s) then
      (Popped(p, s.table[|s.table| - 1]), s.(table := s.table[..|s.table| - 1], sched := 0))
    else (p, s.(sched := 0))
  }

  /** Last scheduled row first, so that the free list gets its old head back. */
  function UndoAll(c: Config, p: Pool, rows: seq<Row>): (r: (Pool, seq<Row>))
    requires c.Valid()
    ensures |r.1| == |rows|
    decreases |rows|
  {
    if rows == [] then (p, [])
    else
      var last := |rows| - 1;
      var (p1, s) := UndoRow(c, p, rows[last]);
      var (p2, front) := UndoAll(c, p1, rows[..last]);
      (p2, front + [s])
  }

  /** The group check before anything is undone. */
  ghost predicate UndoAllowed(c: Config, p: Pool, rows: seq<Row>)
    requires c.Valid()
  {
    && (forall i :: 0 <= i < |rows| ==>
          Planned(rows[i]) && (|rows[i].table| == CeilDiv(rows[i].cached, c.blockSize) || Appended(c, rows[i])))
    && (forall i :: 0 <= i < |rows| && Appended(c, rows[i]) ==> FreshSuffix(p, rows[i]))
    && (forall i, j :: 0 <= i < |rows| && 0 <= j < |rows| && i != j && Appended(c, rows[i]) ==>
          rows[i].table[|rows[i].table| - 1] !in rows[j].table)
  }

  ghost predicate FreshSuffix(p: Pool, s: Row)
    requires s.table != []
  {
    var b := s.table[|s.table| - 1];
    b < |p.blocks| && b in p.used && b !in p.free && p.blocks[b] == FRESH && b !in s.table[..|s.table| - 1]
  }

  datatype UndoResult = Undone(sys: Sys) | UndoRefused

  ghost function UndoSchedule(c: Config, y: Sys): UndoResult
    requires c.Valid()
  {
    if !UndoAllowed(c, y.pool, y.running) then UndoRefused
    else
      var (p, rows) := UndoAll(c, y.pool, y.running);
      Undone(y.(pool := p, running := rows))
  }

  /** Abort: release the lease, then undo the scheduled appends. */
  ghost function AbortSpeculative(c: Config, y: Sys, lease: Lease): UndoResult
    requires c.Valid()
  {
    match Rollback(y.pool, y.running, lease)
    case Refused(_) => UndoRefused
    case Settled(p, rows) => UndoSchedule(c, y.(pool := p, running := rows))
  }

  // ----- one row -----

  lemma PlannedTable(c: Config, p: Pool, s: Row)
    requires c.Valid() && RowOk(c, p, s) && Planned(s)
    ensures s.table != [] && (Appended(c, s) || |s.table| == CeilDiv(s.cached, c.blockSize))
  {
    hide Contents, Fits;
    AppendTest(s.cached, c.blockSize);
    CeilBounds(s.cached + 1, c.blockSize);
  }

  lemma UndoAppended(c: Config, p: Pool, s: Row, rest: multiset<nat>)
    requires c.Valid() && Wf(p) && Owned(p, rest + multiset(s.table)) && RowOk(c, p, s) && Planned(s) && Appended(c, s)
    ensures var n := |s.table| - 1;
      var q, s' := Popped(p, s.table[n]), s.(table := s.table[..n], sched := 0);
      && Wf(q) && Owned(q, rest + multiset(s'.table)) && Keeps(p, q, rest) && q.index == p.index
      && RowOk(c, q, s') && Decoding(s')
  {
    hide Wf, Owned, Contents, CeilDiv, Keeps, Popped, Fits;
    var n := |s.table| - 1;
    var b, t := s.table[n], s.table[..n];
    SuffixExclusive(c, p, s, rest);
    OneOff(s.table, rest);
    PopKeeps(p, b, rest + multiset(t));
    KeepsLess(p, Popped(p, b), rest + multiset(t), rest);
    PopIndex(p, b);
    ContentsShorter(c, p, s, n);
    ContentsStable(c, p, Popped(p, b), s.(table := t, sched := 0), rest + multiset(t));
    FitsSame(c, s, s.(table := t, sched := 0));
  }

  lemma OneOff(table: seq<nat>, rest: multiset<nat>)
    requires table != []
    ensures var n := |table| - 1; rest + multiset(table) == rest + multiset(table[..n]) + multiset{table[n]}
  {
    assert table == table[..|table| - 1] + [table[|table| - 1]];
  }

  lemma UndoNothing(c: Config, p: Pool, s: Row)
    requires c.Valid() && RowOk(c, p, s) && Planned(s) && |s.table| == CeilDiv(s.cached, c.blockSize)
    ensures RowOk(c, p, s.(sched := 0)) && Decoding(s.(sched := 0))
  {
    hide Contents, CeilDiv, Fits;
    ContentsSame(c, p, s, s.(sched := 0));
    FitsSame(c, s, s.(sched := 0));
  }

  lemma UndoRowKeeps(c: Config, p: Pool, s: Row, rest: multiset<nat>)
    requires c.Valid() && Wf(p) && Owned(p, rest + multiset(s.table)) && RowOk(c, p, s) && Planned(s)
    ensures var (q, s') := UndoRow(c, p, s);
      && Wf(q) && Owned(q, rest + multiset(s'.table)) && Keeps(p, q, rest) && q.index == p.index
      && RowOk(c, q, s') && Decoding(s')
      && s' == s.(table := s'.table, sched := 0) && s'.table <= s.table
      && |s'.table| == CeilDiv(s.cached, c.blockSize)
  {
    hide Wf, Owned, RowOk, CeilDiv, Keeps, Popped, Planned, Decoding;
    PlannedTable(c, p, s);
    if Appended(c, s) {
      UndoAppended(c, p, s, rest);
    } else {
      UndoNothing(c, p, s);
      KeepsSelf(p, rest);
    }
  }

  lemma PopIndex(p: Pool, b: nat)
    ensures Popped(p, b).index == p.index
  {
  }

  lemma SuffixExclusive(c: Config, p: Pool, s: Row, rest: multiset<nat>)
    requires c.Valid() && Owned(p, rest + multiset(s.table)) && Contents(c, p, s) && Appended(c, s)
    ensures var n := |s.table| - 1;
      var b := s.table[n];
      && s.cached / c.blockSize <= n && b < |p.blocks| && p.blocks[b] == FRESH
      && b !in rest && b !in s.table[..n] && b !in rest + multiset(s.table[..n])
      && (rest + multiset(s.table))[b] == 1
  {
    FloorCeil(s.cached, c.blockSize);
    var n := |s.table| - 1;
    var b := s.table[n];
    assert p.blocks[b] == FRESH;
    FreshExclusive(p, s.table, n, rest);
    assert forall j :: 0 <= j < n ==> s.table[..n][j] != b;
    assert multiset(s.table[..n])[b] == 0;
  }

  lemma ContentsShorter(c: Config, p: Pool, s: Row, n: nat)
    requires c.Valid() && Contents(c, p, s) && s.cached / c.blockSize <= n <= |s.table|
    ensures Contents(c, p, s.(table := s.table[..n], sched := 0))
  {
    hide Chain, BlockTokens;
  }

  lemma PopKeeps(p: Pool, b: nat, m: multiset<nat>)
    requires Wf(p) && Owned(p, m + multiset{b}) && b !in m
    ensures Wf(Popped(p, b)) && Owned(Popped(p, b), m) && Keeps(p, Popped(p, b), m)
  {
    var q := Popped(p, b);
    var m1 := m + multiset{b};
    assert b in m1 && forall x :: x in m ==> x in m1;
    assert b < |p.blocks| && b in p.used && b !in p.free;
    assert forall i :: 0 < i < |q.free| ==> q.free[i] == p.free[i - 1];
    assert NoDup(q.free) by {
      forall i, j | 0 <= i < j < |q.free| ensures q.free[i] != q.free[j] {
        if i == 0 { assert p.free[j - 1] in p.free; }
      }
    }
    assert FreeList(q) by {
      forall x | x in q.free ensures x == b || x in p.free {}
    }
    forall x: nat | x < |q.blocks| ensures q.blocks[x].refs == m[x] && (x in q.used <==> x in m) {
      assert x != b ==> m1[x] == m[x];
    }
  }

  // ----- the batch -----

  /** The blocks the schedule appended, in row order. */
  function AppendedBlocks(c: Config, rows: seq<Row>): seq<nat>
    requires c.Valid()
    decreases |rows|
  {
    if rows == [] then []
    else
      var s := rows[|rows| - 1];
      AppendedBlocks(c, rows[..|rows| - 1]) + Suffix(c, s)
  }

  ghost predicate UndoneRow(c: Config, s: Row, s': Row)
    requires c.Valid()
  {
    && s' == s.(table := s'.table, sched := 0) && s'.table <= s.table
    && |s'.table| == CeilDiv(s.cached, c.blockSize)
  }

  lemma {:induction false} UndoAllShape(c: Config, p: Pool, rows: seq<Row>)
    requires c.Valid()
    requires forall i :: 0 <= i < |rows| ==> |rows[i].table| == CeilDiv(rows[i].cached, c.blockSize) || Appended(c, rows[i])
    ensures var (q, rows') := UndoAll(c, p, rows);
      && q.free == AppendedBlocks(c, rows) + p.free && q.index == p.index
      && (forall i :: 0 <= i < |rows| ==> UndoneRow(c, rows[i], rows'[i]))
    decreases |rows|
  {
    hide UndoneRow, Suffix, UndoRow, CeilDiv;
    if rows != [] {
      var s, front := rows[|rows| - 1], rows[..|rows| - 1];
      UndoRowShape(c, p, s);
      var (p1, s') := UndoRow(c, p, s);
      UndoAllShape(c, p1, front);
      UndoFree(c, p, s);
    }
  }

  lemma UndoRowShape(c: Config, p: Pool, s: Row)
    requires c.Valid() && (|s.table| == CeilDiv(s.cached, c.blockSize) || Appended(c, s))
    ensures UndoneRow(c, s, UndoRow(c, p, s).1) && UndoRow(c, p, s).0.index == p.index
  {
  }

  lemma UndoLast(c: Config, p: Pool, front: seq<Row>, s: Row, others: seq<Row>)
    requires c.Valid() && Held(c, p, front + [s] + others) && AllPlanned(front + [s])
    ensures AllPlanned(front)
    ensures var (p1, s') := UndoRow(c, p, s); Held(c, p1, front + ([s'] + others)) && Decoding(s')
  {
    hide Held, Planned, Decoding, Perm, UndoRow;
    assert Planned((front + [s])[|front|]);
    assert forall i :: 0 <= i < |front| ==> front[i] == (front + [s])[i];
    LastFirst(front, s, others);
    HeldPerm(c, p, front + [s] + others, [s] + (front + others));
    UndoRowHeld(c, p, s, front + others);
    var (p1, s') := UndoRow(c, p, s);
    LastFirst(front, s', others);
    assert front + [s'] + others == front + ([s'] + others);
    HeldPerm(c, p1, [s'] + (front + others), front + ([s'] + others));
  }

  lemma {:induction false} UndoAllKeeps(c: Config, p: Pool, rows: seq<Row>, others: seq<Row>)
    requires c.Valid() && Held(c, p, rows + others) && AllPlanned(rows)
    ensures var (q, rows') := UndoAll(c, p, rows); Held(c, q, rows' + others) && AllDecoding(rows')
    decreases |rows|
  {
    hide Held, Planned, Decoding, UndoneRow, Perm, Suffix, UndoRow;
    if rows != [] {
      var s, front := rows[|rows| - 1], rows[..|rows| - 1];
      assert rows == front + [s];
      UndoLast(c, p, front, s, others);
      var (p1, s') := UndoRow(c, p, s);
      UndoAllKeeps(c, p1, front, [s'] + others);
      var (q, front') := UndoAll(c, p1, front);
      assert front' + [s'] + others == front' + ([s'] + others);
    }
  }

  /** The group check protects the pool by itself: whatever state the rows are in, if it
      passes, the undo takes back only blocks that nobody else references. */
  lemma {:induction false} UndoSafe(c: Config, p: Pool, rows: seq<Row>, m: multiset<nat>)
    requires c.Valid() && Wf(p) && Owned(p, Owners(rows) + m) && UndoAllowed(c, p, rows)
    ensures var (q, rows') := UndoAll(c, p, rows); Wf(q) && Owned(q, Owners(rows') + m)
    decreases |rows|
  {
    hide Wf, Owned, UndoRow, Planned;
    if rows != [] {
      var s, front := rows[|rows| - 1], rows[..|rows| - 1];
      assert rows == front + [s];
      OwnersConcat(front, [s]);
      OwnersOne(s);
      var (p1, s') := UndoRow(c, p, s);
      assert Owners(rows) + m == Owners(front) + m + multiset(s.table);
      UndoOneSafe(c, p, s, Owners(front) + m);
      assert UndoAllowed(c, p1, front) by { FrontAllowed(c, p, front, s); }
      assert Owners(front) + m + multiset(s'.table) == Owners(front) + (m + multiset(s'.table));
      UndoSafe(c, p1, front, m + multiset(s'.table));
      var (q, front') := UndoAll(c, p1, front);
      OwnersConcat(front', [s']);
      OwnersOne(s');
      assert Owners(front' + [s']) + m == Owners(front') + (m + multiset(s'.table));
    }
  }

  lemma UndoOneSafe(c: Config, p: Pool, s: Row, m: multiset<nat>)
    requires c.Valid() && Wf(p) && Owned(p, m + multiset(s.table)) && (Appended(c, s) ==> FreshSuffix(p, s))
    ensures var (q, s') := UndoRow(c, p, s); Wf(q) && Owned(q, m + multiset(s'.table))
  {
    if Appended(c, s) {
      var last := |s.table| - 1;
      var b := s.table[last];
      assert s.table == s.table[..last] + [b];
      assert m + multiset(s.table) == m + multiset(s.table[..last]) + multiset{b};
      assert b !in m + multiset(s.table[..last]) by { OwnedOnce(p, m, s.table[..last], b); }
      PopKeeps(p, b, m + multiset(s.table[..last]));
    }
  }

  lemma OwnedOnce(p: Pool, m: multiset<nat>, front: seq<nat>, b: nat)
    requires Owned(p, m + multiset(front) + multiset{b}) && b < |p.blocks| && p.blocks[b].refs == 1
    ensures b !in m + multiset(front)
  {
    assert (m + multiset(front) + multiset{b})[b] == (m + multiset(front))[b] + 1;
  }

  /** Undoing the last row leaves the check for the others as it was. */
  lemma FrontAllowed(c: Config, p: Pool, front: seq<Row>, s: Row)
    requires c.Valid() && UndoAllowed(c, p, front + [s])
    ensures UndoAllowed(c, UndoRow(c, p, s).0, front)
  {
    hide Planned, CeilDiv;
    var rows, p1 := front + [s], UndoRow(c, p, s).0;
    assert forall i :: 0 <= i < |front| ==> front[i] == rows[i];
    assert rows[|front|] == s;
    forall i | 0 <= i < |front| && Appended(c, front[i]) ensures FreshSuffix(p1, front[i]) {
      assert FreshSuffix(p, rows[i]);
      if Appended(c, s) {
        assert s.table[|s.table| - 1] !in rows[i].table;
      }
    }
  }

  lemma UndoFree(c: Config, p: Pool, s: Row)
    requires c.Valid()
    ensures UndoRow(c, p, s).0.free == Suffix(c, s) + p.free
  {
  }

  lemma LastFirst(front: seq<Row>, s: Row, others: seq<Row>)
    ensures Perm(front + [s] + others, [s] + (front + others)) && Perm([s] + (front + others), front + [s] + others)
  {
  }

  lemma UndoRowHeld(c: Config, p: Pool, s: Row, a: seq<Row>)
    requires c.Valid() && Held(c, p, [s] + a) && Planned(s)
    ensures var (q, s') := UndoRow(c, p, s);
      Held(c, q, [s'] + a) && Decoding(s')
  {
    hide Held, Wf, Owned, Keeps, RowOk, UndoRow, Decoding, Planned;
    PermSelf([s] + a);
    HeldFocus(c, p, s, a, [s] + a);
    UndoRowKeeps(c, p, s, Owners(a));
    var (q, s') := UndoRow(c, p, s);
    HeldReplace(c, p, q, s, s', a);
  }

  ghost predicate SuffixFacts(c: Config, p: Pool, s: Row, q: seq<Row>)
    requires c.Valid()
  {
    && Planned(s) && (|s.table| == CeilDiv(s.cached, c.blockSize) || Appended(c, s))
    && (Appended(c, s) ==> s.table != [] && FreshSuffix(p, s) && Owners(q)[s.table[|s.table| - 1]] == 1)
  }

  lemma PlannedSuffix(c: Config, p: Pool, rows: seq<Row>, others: seq<Row>, i: nat)
    requires c.Valid() && Held(c, p, rows + others) && AllPlanned(rows) && i < |rows|
    ensures SuffixFacts(c, p, rows[i], rows + others)
  {
    var q := rows + others;
    assert q[i] == rows[i] && Planned(rows[i]) && q[i] in q;
    HeldMember(c, p, q, q[i]);
    hide RowOk, Planned, FreshSuffix, Owners;
    PlannedTable(c, p, rows[i]);
    if Appended(c, rows[i]) { SuffixIsFresh(c, p, q, i); }
  }

  lemma UndoIsAllowed(c: Config, p: Pool, rows: seq<Row>, others: seq<Row>)
    requires c.Valid() && Held(c, p, rows + others) && AllPlanned(rows)
    ensures UndoAllowed(c, p, rows)
  {
    hide Held, FreshSuffix, Owners, Appended, CeilDiv, Planned;
    var q := rows + others;
    forall i | 0 <= i < |rows| ensures SuffixFacts(c, p, rows[i], q) { PlannedSuffix(c, p, rows, others, i); }
    forall i, j | 0 <= i < |rows| && 0 <= j < |rows| && i != j && Appended(c, rows[i])
      ensures rows[i].table[|rows[i].table| - 1] !in rows[j].table
    {
      var b := rows[i].table[|rows[i].table| - 1];
      assert SuffixFacts(c, p, rows[i], q);
      if b in rows[j].table {
        assert q[i] == rows[i] && q[j] == rows[j] && b in rows[i].table;
        TwoOwners(q, if i < j then i else j, if i < j then j else i, b);
      }
    }
  }

  lemma SuffixIsFresh(c: Config, p: Pool, q: seq<Row>, i: nat)
    requires c.Valid() && Held(c, p, q) && i < |q| && Planned(q[i]) && Appended(c, q[i])
    ensures q[i].table != [] && FreshSuffix(p, q[i]) && Owners(q)[q[i].table[|q[i].table| - 1]] == 1
  {
    hide Wf, Owned, Contents, Distinct, CeilDiv;
    var s := q[i];
    var b := s.table[|s.table| - 1];
    assert RowOk(c, p, s);
    OwnersAt(q, i);
    var rest := Owners(q) - multiset(s.table);
    assert rest + multiset(s.table) == Owners(q);
    SuffixExclusive(c, p, s, rest);
    OwnedIsUsed(p, Owners(q), b);
  }

  /** Undoing a scheduled pure decode batch passes its checks and returns to an idle
      state with the appended blocks back at the head of the free list. */
  lemma UndoKeeps(c: Config, y: Sys)
    requires c.Valid() && PureDecode(c, y)
    ensures var r := UndoSchedule(c, y);
      && r.Undone? && Idle(c, r.sys)
      && r.sys.waiting == y.waiting && r.sys.mid == y.mid && |r.sys.running| == |y.running|
      && (forall i :: 0 <= i < |y.running| ==> UndoneRow(c, y.running[i], r.sys.running[i]))
      && r.sys.pool.index == y.pool.index
      && r.sys.pool.free == AppendedBlocks(c, y.running) + y.pool.free
  {
    PureHeld(c, y);
    PureSizes(c, y);
    hide Held, PureDecode, Ready, Planned, UndoAll, UndoAllowed, UndoneRow, Perm, WaitShape, NoChunk, AllDecoding;
    UndoIsAllowed(c, y.pool, y.running, y.waiting);
    UndoAllKeeps(c, y.pool, y.running, y.waiting);
    AllowedSizes(c, y.pool, y.running);
    UndoAllShape(c, y.pool, y.running);
    var (p, rows) := UndoAll(c, y.pool, y.running);
    WaitFirst(y.waiting, rows);
    HeldPerm(c, p, rows + y.waiting, y.waiting + rows);
    var y' := y.(pool := p, running := rows);
    RowsPlain(y');
    assert WaitShape(y') && NoChunk(y') by { ShapeOfWaiting(y, p, rows); }
  }

  lemma AllowedSizes(c: Config, p: Pool, rows: seq<Row>)
    requires c.Valid() && UndoAllowed(c, p, rows)
    ensures forall i :: 0 <= i < |rows| ==> |rows[i].table| == CeilDiv(rows[i].cached, c.blockSize) || Appended(c, rows[i])
  {
    hide FreshSuffix, Planned;
  }

  lemma PureSizes(c: Config, y: Sys)
    requires c.Valid() && PureDecode(c, y)
    ensures |y.waiting| + |y.running| <= c.maxSeqs && WaitShape(y) && NoChunk(y) && AllPlanned(y.running)
  {
  }

  /** Forgetting what free blocks cached does not disturb a scheduled batch. */
  lemma EvictedPure(c: Config, y: Sys, order: seq<nat>)
    requires c.Valid() && PureDecode(c, y) && forall b :: b in order ==> b in y.pool.free
    ensures PureDecode(c, y.(pool := Evicted(y.pool, order)))
  {
    hide Held, Planned, Complete, Quiet, Partial, Evicted;
    RowsPlain(y);
    var y' := y.(pool := Evicted(y.pool, order));
    RowsPlain(y');
    EvictedHeld(c, y.pool, order, Rows(y));
  }

  lemma LeaseBasePure(c: Config, base: Sys, y: Sys, lease: Lease, k: nat, prepared: bool)
    requires c.Valid() && Leased(c, base, y, lease, k, prepared)
    ensures PureDecode(c, LeaseBase(base, lease, prepared))
  {
    PrefixIn(lease.order, base.pool.free);
    hide PureDecode, LeaseOf, SuffixFor;
    if prepared { EvictedPure(c, base, lease.order); }
  }

  /** Abort succeeds at every point between planning and commit, and is idle again. */
  lemma AbortKeeps(c: Config, base: Sys, y: Sys, lease: Lease, k: nat, prepared: bool)
    requires c.Valid() && Leased(c, base, y, lease, k, prepared)
    ensures var b := LeaseBase(base, lease, prepared);
      && AbortSpeculative(c, y, lease) == UndoSchedule(c, b)
      && UndoSchedule(c, b).Undone? && Idle(c, UndoSchedule(c, b).sys)
  {
    LeaseBasePure(c, base, y, lease, k, prepared);
    LeasedParts(c, base, y, lease, k, prepared);
    var b := LeaseBase(base, lease, prepared);
    hide Leased, PureDecode, LeaseOf, Rollback, UndoSchedule;
    RollbackExact(b.pool, base.running, y.pool, y.running, lease);
    UndoKeeps(c, b);
  }
}
