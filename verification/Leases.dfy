/** The temporary lease: blocks reserved past the committed suffix of each row,
    rolled back, prepared for target writes, or finalized with a kept prefix. */
module Leases {
  import opened Arith
  import opened Types
  import opened Pools
  import opened Allocator
  import opened Queues

  datatype LeaseRow = LeaseRow(id: nat, before: seq<nat>, appended: seq<nat>, cached: nat, draft: nat)

  datatype Lease = Lease(
    rows: seq<LeaseRow>,
    order: seq<nat>,
    freeBefore: seq<nat>,
    usedBefore: set<nat>,
    indexBefore: map<int, nat>,
    states: map<nat, Block>)

  /** Blocks a row needs beyond its table to hold position `high`. */
  function Needed(c: Config, s: Row, high: nat): nat
    requires c.Valid()
  {
    Max(high / c.blockSize + 1, |s.table|) - |s.table|
  }

  function TotalNeeded(c: Config, rows: seq<Row>, highs: seq<nat>): nat
    requires c.Valid() && |rows| == |highs|
  {
    if rows == [] then 0 else Needed(c, rows[0], highs[0]) + TotalNeeded(c, rows[1..], highs[1..])
  }

  datatype Growth = Growth(pool: Pool, rows: seq<Row>, leased: seq<LeaseRow>)

  /** Append to each row, in order, the next blocks of the free list. */
  function GrowAll(c: Config, p: Pool, rows: seq<Row>, highs: seq<nat>): Growth
    requires c.Valid() && |rows| == |highs|
    decreases |rows|
  {
    if rows == [] then Growth(p, [], [])
    else
      var s := rows[0];
      var n := Needed(c, s, highs[0]);
      var taken := p.free[..if n <= |p.free| then n else |p.free|];
      var rest := GrowAll(c, Grow(p, s.table, n).0, rows[1..], highs[1..]);
      Growth(rest.pool,
             [s.(table := s.table + taken)] + rest.rows,
             [LeaseRow(s.id, s.table, taken, s.cached, s.draft)] + rest.leased)
  }

  function Tables(rows: seq<Row>): set<nat> {
    if rows == [] then {} else ToSet(rows[0].table) + Tables(rows[1..])
  }

  datatype LeaseError = RowsNotUnique | UnownedBlock | MembershipInvalid | Drifted | KeepInvalid

  datatype Reservation =
    | Reserved(pool: Pool, rows: seq<Row>, lease: Lease)
    | NoCapacity
    | ReserveFailed(error: LeaseError)

  ghost predicate OwnsItsBlocks(p: Pool, s: Row) {
    forall i :: 0 <= i < |s.table| ==>
      s.table[i] < |p.blocks| && s.table[i] in p.used && p.blocks[s.table[i]].refs > 0
  }

  ghost function Reserve(c: Config, p: Pool, rows: seq<Row>, highs: seq<nat>): Reservation
    requires c.Valid() && |rows| == |highs|
  {
    if !Distinct(rows) then ReserveFailed(RowsNotUnique)
    else if exists i :: 0 <= i < |rows| && !OwnsItsBlocks(p, rows[i]) then ReserveFailed(UnownedBlock)
    else
      var n := TotalNeeded(c, rows, highs);
      if n > |p.free| then NoCapacity
      else if !FreeList(p) || (exists b :: b in p.free[..n] && b < |p.blocks| && p.blocks[b].refs != 0) then
        ReserveFailed(MembershipInvalid)
      else
        var g := GrowAll(c, p, rows, highs);
        var order := p.free[..n];
        Reserved(g.pool, g.rows, Lease(g.leased, order, p.free, p.used, p.index, Snapshot(p, ToSet(order) + Tables(rows))))
  }

  function Snapshot(p: Pool, ids: set<nat>): map<nat, Block> {
    map b | b in ids && b < |p.blocks| :: p.blocks[b]
  }

  function Flatten(rows: seq<LeaseRow>): seq<nat> {
    if rows == [] then [] else rows[0].appended + Flatten(rows[1..])
  }

  function BeforeTables(rows: seq<LeaseRow>): set<nat> {
    if rows == [] then {} else ToSet(rows[0].before) + BeforeTables(rows[1..])
  }

  /** The index the allocator must show while the lease is live. */
  function ExpectedIndex(lease: Lease): map<int, nat> {
    map h | h in lease.indexBefore
            && !(lease.indexBefore[h] in lease.order && lease.indexBefore[h] in lease.states
                 && lease.states[lease.indexBefore[h]].hash == h)
      :: lease.indexBefore[h]
  }

  ghost predicate RowMatches(s: Row, r: LeaseRow) {
    s.id == r.id && s.table == r.before + r.appended && s.cached == r.cached && s.draft == r.draft
  }

  /** The check the allocator repeats before every use of a live lease. */
  ghost predicate Live(p: Pool, rows: seq<Row>, lease: Lease) {
    && NoDup(lease.order)
    && lease.states.Keys == ToSet(lease.order) + BeforeTables(lease.rows)
    && |lease.order| <= |lease.freeBefore|
    && p.free == lease.freeBefore[|lease.order|..]
    && p.used == lease.usedBefore + ToSet(lease.order)
    && p.index == ExpectedIndex(lease)
    && (forall b :: b in lease.states ==>
          b < |p.blocks| && p.blocks[b] == if b in lease.order then FRESH else lease.states[b])
    && Flatten(lease.rows) == lease.order
    && |rows| == |lease.rows|
    && (forall i :: 0 <= i < |rows| ==> RowMatches(rows[i], lease.rows[i]))
  }

  function RestoreBlocks(blocks: seq<Block>, states: map<nat, Block>): seq<Block> {
    seq(|blocks|, b requires 0 <= b < |blocks| => if b in states then states[b] else blocks[b])
  }

  function RestoreRow(s: Row, r: LeaseRow): Row {
    s.(table := r.before, cached := r.cached, draft := r.draft)
  }

  function RestoreRows(rows: seq<Row>, leased: seq<LeaseRow>): seq<Row>
    requires |rows| == |leased|
  {
    seq(|rows|, i requires 0 <= i < |rows| => RestoreRow(rows[i], leased[i]))
  }

  datatype Settled = Settled(pool: Pool, rows: seq<Row>) | Refused(error: LeaseError)

  ghost function Rollback(p: Pool, rows: seq<Row>, lease: Lease): Settled {
    if !Live(p, rows, lease) then Refused(Drifted)
    else
      Settled(
        Pool(RestoreBlocks(p.blocks, lease.states), lease.freeBefore, lease.usedBefore, lease.indexBefore),
        RestoreRows(rows, lease.rows))
  }

  function Forgotten(b: Block): Block {
    b.(hash := NO_HASH, toks := [])
  }

  /** The lease once its blocks may be overwritten by target writes: what they
      cached before can no longer be restored. */
  function Prepare(lease: Lease): Lease {
    lease.(
      indexBefore := Without(lease.indexBefore, ToSet(lease.order)),
      states := map b | b in lease.states :: if b in lease.order then Forgotten(lease.states[b]) else lease.states[b])
  }

  function Minus(q: seq<nat>, gone: set<nat>): seq<nat> {
    if q == [] then []
    else if q[0] in gone then Minus(q[1..], gone)
    else [q[0]] + Minus(q[1..], gone)
  }

  predicate KeepFits(leased: seq<LeaseRow>, keep: seq<int>) {
    |keep| == |leased| && forall i :: 0 <= i < |keep| ==> 0 <= keep[i] <= |leased[i].appended|
  }

  /** The blocks kept, row after row. */
  function Kept(leased: seq<LeaseRow>, keep: seq<int>): seq<nat>
    requires KeepFits(leased, keep)
  {
    if leased == [] then []
    else
      assert KeepFits(leased[1..], keep[1..]) by {
        assert forall i :: 0 <= i < |keep| - 1 ==> keep[1..][i] == keep[i + 1] && leased[1..][i] == leased[i + 1];
      }
      leased[0].appended[..keep[0]] + Kept(leased[1..], keep[1..])
  }

  function KeepRows(rows: seq<Row>, leased: seq<LeaseRow>, keep: seq<int>): seq<Row>
    requires |rows| == |leased| && KeepFits(leased, keep)
  {
    seq(|rows|, i requires 0 <= i < |rows| =>
      rows[i].(table := leased[i].before + leased[i].appended[..keep[i]]))
  }

  /** Consume the lease, retaining the first keep[i] appended blocks of row i. */
  ghost function Finalize(p: Pool, rows: seq<Row>, lease: Lease, keep: seq<int>): Settled {
    if !Live(p, rows, lease) then Refused(Drifted)
    else if !KeepFits(lease.rows, keep) then Refused(KeepInvalid)
    else
      var kept := ToSet(Kept(lease.rows, keep));
      var released := map b | b in lease.states && b in lease.order && b !in kept :: lease.states[b];
      Settled(
        Pool(RestoreBlocks(p.blocks, released),
             Minus(lease.freeBefore, kept),
             lease.usedBefore + kept,
             Without(lease.indexBefore, kept)),
        KeepRows(rows, lease.rows, keep))
  }

  // ----- closed form of a reservation -----

  lemma {:induction false} GrowTwice(p: Pool, t: seq<nat>, u: seq<nat>, a: nat, b: nat)
    requires a + b <= |p.free| && forall i :: 0 <= i < |p.free| ==> p.free[i] < |p.blocks|
    ensures Grow(Grow(p, t, a).0, u, b).0 == Grow(p, t, a + b).0
    decreases a
  {
    if a == 0 {
      GrowTable(p, t, u, b);
    } else {
      var p1 := Take(p);
      assert p1.free == p.free[1..] && |p1.blocks| == |p.blocks|;
      GrowTwice(p1, t + [p.free[0]], u, a - 1, b);
    }
  }

  lemma {:induction false} GrowTable(p: Pool, t: seq<nat>, u: seq<nat>, n: nat)
    ensures Grow(p, t, n).0 == Grow(p, u, n).0
    decreases n
  {
    if n > 0 && p.free != [] {
      GrowTable(Take(p), t + [p.free[0]], u + [p.free[0]], n - 1);
    }
  }

  ghost predicate GrownAs(s: Row, s': Row, r: LeaseRow) {
    && r == LeaseRow(s.id, s.table, r.appended, s.cached, s.draft)
    && s' == s.(table := s.table + r.appended)
  }

  /** The first row of a group reservation takes the head of the free list. */
  lemma FirstGrown(c: Config, p: Pool, rows: seq<Row>, highs: seq<nat>)
    requires c.Valid() && rows != [] && |rows| == |highs|
    requires var k := Needed(c, rows[0], highs[0]);
      k <= |p.free| && Grow(p, rows[0].table, k).1 == rows[0].table + p.free[..k]
    ensures var k := Needed(c, rows[0], highs[0]);
      var g := GrowAll(c, p, rows, highs);
      var g1 := GrowAll(c, Grow(p, rows[0].table, k).0, rows[1..], highs[1..]);
      && g.pool == g1.pool && |g.rows| == |g1.rows| + 1 && |g.leased| == |g1.leased| + 1
      && g.rows[1..] == g1.rows && g.leased[1..] == g1.leased
      && GrownAs(rows[0], g.rows[0], g.leased[0]) && g.leased[0].appended == p.free[..k]
      && Flatten(g.leased) == p.free[..k] + Flatten(g1.leased)
  {
    hide Grow, Needed;
  }

  /** A group reservation takes one segment of the free list per row, in order. */
  lemma {:induction false} GrowAllIs(c: Config, p: Pool, rows: seq<Row>, highs: seq<nat>, m: multiset<nat>)
    requires c.Valid() && |rows| == |highs| && Wf(p) && Owned(p, m) && TotalNeeded(c, rows, highs) <= |p.free|
    ensures var g := GrowAll(c, p, rows, highs);
      var n := TotalNeeded(c, rows, highs);
      && g.pool == Grow(p, [], n).0 && Flatten(g.leased) == p.free[..n]
      && |g.rows| == |rows| == |g.leased|
      && (forall i :: 0 <= i < |rows| ==>
            GrownAs(rows[i], g.rows[i], g.leased[i]) && |g.leased[i].appended| == Needed(c, rows[i], highs[i]))
    decreases |rows|
  {
    hide Owned, IndexAgrees, Grow, Keeps, Needed, Take, FreeList, GrownAs;
    if rows == [] {
      assert p.free[..0] == [];
      GrowNone(p, []);
    } else {
      var s := rows[0];
      var k := Needed(c, s, highs[0]);
      var n := TotalNeeded(c, rows, highs);
      var p1 := Grow(p, s.table, k).0;
      GrowKeeps(p, s.table, k, m);
      FreeInRange(p);
      GrowShape(p, s.table, k);
      GrowAllIs(c, p1, rows[1..], highs[1..], m + multiset(p.free[..k]));
      GrowTwice(p, s.table, [], k, n - k);
      GrowTable(p, s.table, [], n);
      assert p.free[..n] == p.free[..k] + p.free[k..][..n - k];
      var g := GrowAll(c, p, rows, highs);
      FirstGrown(c, p, rows, highs);
      forall i | 0 <= i < |rows|
        ensures GrownAs(rows[i], g.rows[i], g.leased[i]) && |g.leased[i].appended| == Needed(c, rows[i], highs[i])
      {
        if i > 0 { assert rows[1..][i - 1] == rows[i] && highs[1..][i - 1] == highs[i]; }
      }
    }
  }

  lemma FreeInRange(p: Pool)
    requires FreeList(p)
    ensures forall i :: 0 <= i < |p.free| ==> p.free[i] < |p.blocks|
  {
    forall i | 0 <= i < |p.free| ensures p.free[i] < |p.blocks| { assert p.free[i] in p.free; }
  }

  lemma {:induction false} TablesAre(rows: seq<Row>, rows': seq<Row>, leased: seq<LeaseRow>)
    requires |rows| == |rows'| == |leased|
    requires forall i :: 0 <= i < |rows| ==> GrownAs(rows[i], rows'[i], leased[i])
    ensures BeforeTables(leased) == Tables(rows)
  {
    if rows != [] {
      forall i | 0 <= i < |rows| - 1 ensures GrownAs(rows[1..][i], rows'[1..][i], leased[1..][i]) {
        assert GrownAs(rows[i + 1], rows'[i + 1], leased[i + 1]);
      }
      TablesAre(rows[1..], rows'[1..], leased[1..]);
      assert GrownAs(rows[0], rows'[0], leased[0]);
    }
  }

  lemma {:induction false} TablesOwned(p: Pool, rows: seq<Row>)
    requires forall i :: 0 <= i < |rows| ==> OwnsItsBlocks(p, rows[i])
    ensures forall b :: b in Tables(rows) ==> b < |p.blocks| && b in p.used
  {
    if rows != [] {
      assert forall i :: 0 <= i < |rows| - 1 ==> rows[1..][i] == rows[i + 1];
      TablesOwned(p, rows[1..]);
      assert OwnsItsBlocks(p, rows[0]);
    }
  }

  /** What the free-list head looks like to the pool it was taken from. */
  ghost predicate Took(p: Pool, q: Pool, order: seq<nat>) {
    && |q.blocks| == |p.blocks| && order <= p.free && NoDup(order)
    && q.free == p.free[|order|..] && q.used == p.used + ToSet(order)
    && q.index == Without(p.index, ToSet(order))
    && (forall b :: b in order ==> b < |p.blocks| && b !in p.used)
    && (forall b: nat :: b < |p.blocks| ==> q.blocks[b] == if b in order then FRESH else p.blocks[b])
  }

  lemma TookIs(p: Pool, n: nat, m: multiset<nat>)
    requires Wf(p) && Owned(p, m) && n <= |p.free|
    ensures Took(p, Grow(p, [], n).0, p.free[..n])
  {
    hide Owned, IndexAgrees, Grow;
    GrowMeta(p, [], n, m);
    FreeInRange(p);
    GrowShape(p, [], n);
    var order := p.free[..n];
    forall b | b in order ensures b < |p.blocks| && b !in p.used { assert b in p.free; }
    var q := Grow(p, [], n).0;
    forall b: nat | b < |p.blocks| ensures q.blocks[b] == if b in order then FRESH else p.blocks[b] {
      assert b in ToSet(order) <==> b in order;
    }
  }

  // ----- the lease as a relation between the pool before and after -----

  /** q and rows' are p and rows with the lease taken out of p's free list. */
  ghost predicate LeaseOf(p: Pool, rows: seq<Row>, q: Pool, rows': seq<Row>, lease: Lease) {
    && IndexAgrees(p) && Took(p, q, lease.order)
    && lease.freeBefore == p.free && lease.usedBefore == p.used && lease.indexBefore == p.index
    && lease.states == Snapshot(p, ToSet(lease.order) + Tables(rows))
    && (forall b :: b in Tables(rows) ==> b < |p.blocks| && b in p.used)
    && Flatten(lease.rows) == lease.order
    && |rows| == |rows'| == |lease.rows|
    && (forall i :: 0 <= i < |rows| ==> GrownAs(rows[i], rows'[i], lease.rows[i]))
  }

  lemma HeldOwns(c: Config, p: Pool, rows: seq<Row>, others: seq<Row>, i: nat)
    requires c.Valid() && Held(c, p, rows + others) && i < |rows|
    ensures OwnsItsBlocks(p, rows[i])
  {
    hide Wf, RowOk;
    assert (rows + others)[i] == rows[i];
    OwnersAt(rows + others, i);
    forall k | 0 <= k < |rows[i].table|
      ensures rows[i].table[k] < |p.blocks| && rows[i].table[k] in p.used && p.blocks[rows[i].table[k]].refs > 0
    {
      assert rows[i].table[k] in multiset(rows[i].table);
    }
  }

  lemma HeldFacts(c: Config, p: Pool, rows: seq<Row>, others: seq<Row>)
    requires c.Valid() && Held(c, p, rows + others)
    ensures Distinct(rows) && Wf(p) && Owned(p, Owners(rows + others))
    ensures forall b :: b in p.free ==> b < |p.blocks| && p.blocks[b].refs == 0
  {
    hide Owned, IndexAgrees, AllOk, Distinct, FreeList;
    DistinctPart(rows, others);
    FreeUnreferenced(p, Owners(rows + others));
  }

  /** A group reservation never fails: it either finds no capacity, changing
      nothing, or takes the head of the free list. */
  lemma ReserveTakes(c: Config, p: Pool, rows: seq<Row>, others: seq<Row>, highs: seq<nat>)
    requires c.Valid() && Held(c, p, rows + others) && |rows| == |highs|
    ensures var n := TotalNeeded(c, rows, highs);
      var r := Reserve(c, p, rows, highs);
      if n > |p.free| then r == NoCapacity
      else
        && r.Reserved? && r.lease.order == p.free[..n]
        && LeaseOf(p, rows, r.pool, r.rows, r.lease)
        && (forall i :: 0 <= i < |rows| ==> |r.lease.rows[i].appended| == Needed(c, rows[i], highs[i]))
  {
    hide Owned, Held, GrowAll, OwnsItsBlocks, Distinct, RowOk, Took, Flatten, Tables, GrownAs, IndexAgrees, FreeList, Snapshot,
         Needed, TotalNeeded;
    HeldFacts(c, p, rows, others);
    var n := TotalNeeded(c, rows, highs);
    forall i | 0 <= i < |rows| ensures OwnsItsBlocks(p, rows[i]) { HeldOwns(c, p, rows, others, i); }
    if n <= |p.free| {
      assert forall b :: b in p.free[..n] ==> b in p.free;
      GrowAllIs(c, p, rows, highs, Owners(rows + others));
      TookIs(p, n, Owners(rows + others));
      TablesOwned(p, rows);
    }
  }

  lemma DistinctPart(a: seq<Row>, b: seq<Row>)
    requires Distinct(a + b)
    ensures Distinct(a)
  {
    forall i, j | 0 <= i < j < |a| ensures a[i].id != a[j].id {
      assert (a + b)[i] == a[i] && (a + b)[j] == a[j];
    }
  }

  lemma FreeUnreferenced(p: Pool, m: multiset<nat>)
    requires FreeList(p) && Owned(p, m)
    ensures forall b :: b in p.free ==> b < |p.blocks| && p.blocks[b].refs == 0
  {
  }

  lemma ExpectedIs(p: Pool, rows: seq<Row>, q: Pool, rows': seq<Row>, lease: Lease)
    requires LeaseOf(p, rows, q, rows', lease)
    ensures ExpectedIndex(lease) == Without(p.index, ToSet(lease.order))
  {
    hide Tables, Flatten, GrownAs;
    forall h | h in p.index
      ensures p.index[h] in lease.order && p.index[h] in lease.states && lease.states[p.index[h]].hash == h
              <==> p.index[h] in ToSet(lease.order)
    {
      assert p.blocks[p.index[h]].hash == h;
    }
  }

  /** The live-lease check never fails on a lease that was taken and not touched. */
  lemma LeaseIsLive(p: Pool, rows: seq<Row>, q: Pool, rows': seq<Row>, lease: Lease)
    requires LeaseOf(p, rows, q, rows', lease)
    ensures Live(q, rows', lease)
  {
    ExpectedIs(p, rows, q, rows', lease);
    TablesAre(rows, rows', lease.rows);
    hide ExpectedIndex, Flatten, Tables, BeforeTables;
    forall b | b in lease.states
      ensures b < |q.blocks| && q.blocks[b] == if b in lease.order then FRESH else lease.states[b]
    {
    }
    assert lease.states.Keys == ToSet(lease.order) + Tables(rows);
  }

  predicate SameClaims(s: Row, s': Row) {
    s'.id == s.id && s'.table == s.table && s'.cached == s.cached && s'.draft == s.draft
  }

  /** Nothing the lease covers has changed: the allocator's lists and index, the leased
      blocks and those of the leased rows, and what the rows say about their blocks. */
  ghost predicate Undrifted(q: Pool, rows: seq<Row>, q': Pool, rows': seq<Row>, covered: set<nat>) {
    && q'.free == q.free && q'.used == q.used && q'.index == q.index
    && (forall b :: b in covered ==> b < |q.blocks| && b < |q'.blocks| && q'.blocks[b] == q.blocks[b])
    && |rows'| == |rows| && forall i :: 0 <= i < |rows| ==> SameClaims(rows[i], rows'[i])
  }

  /** The live-lease check in both directions: it accepts a state exactly when nothing the
      lease covers has changed since the lease was taken. */
  lemma LiveIsExact(p: Pool, rows: seq<Row>, q: Pool, rows': seq<Row>, lease: Lease, q2: Pool, rows2: seq<Row>)
    requires LeaseOf(p, rows, q, rows', lease)
    ensures Live(q2, rows2, lease) <==> Undrifted(q, rows', q2, rows2, ToSet(lease.order) + Tables(rows))
  {
    LeaseIsLive(p, rows, q, rows', lease);
    var covered := ToSet(lease.order) + Tables(rows);
    assert lease.states.Keys == covered;
    hide LeaseOf, ExpectedIndex, Flatten, Tables, BeforeTables;
    if Live(q2, rows2, lease) {
      forall b | b in covered ensures b < |q.blocks| && b < |q2.blocks| && q2.blocks[b] == q.blocks[b] {
        assert b in lease.states;
      }
      forall i | 0 <= i < |rows'| ensures SameClaims(rows'[i], rows2[i]) {
        assert RowMatches(rows'[i], lease.rows[i]) && RowMatches(rows2[i], lease.rows[i]);
      }
    }
    if Undrifted(q, rows', q2, rows2, covered) {
      forall i | 0 <= i < |rows2| ensures RowMatches(rows2[i], lease.rows[i]) {
        assert RowMatches(rows'[i], lease.rows[i]);
      }
      forall b | b in lease.states ensures b < |q2.blocks| && q2.blocks[b] == q.blocks[b] { assert b in covered; }
    }
  }

  /** Rolling a lease back restores the pool and the rows exactly. */
  lemma RollbackExact(p: Pool, rows: seq<Row>, q: Pool, rows': seq<Row>, lease: Lease)
    requires LeaseOf(p, rows, q, rows', lease)
    ensures Rollback(q, rows', lease) == Settled(p, rows)
  {
    LeaseIsLive(p, rows, q, rows', lease);
    hide Live, Flatten, Tables;
    assert RestoreBlocks(q.blocks, lease.states) == p.blocks;
    forall i | 0 <= i < |rows| ensures RestoreRow(rows'[i], lease.rows[i]) == rows[i] {
      assert GrownAs(rows[i], rows'[i], lease.rows[i]);
    }
    assert RestoreRows(rows', lease.rows) == rows;
  }

  /** The pool in which the given free blocks no longer cache anything. */
  function Evicted(p: Pool, order: seq<nat>): Pool {
    p.(blocks := seq(|p.blocks|, b requires 0 <= b < |p.blocks| => if b in order then Forgotten(p.blocks[b]) else p.blocks[b]),
       index := Without(p.index, ToSet(order)))
  }

  /** Preparing target writes turns the lease into one over the evicted pool. */
  lemma PrepareEvicts(p: Pool, rows: seq<Row>, q: Pool, rows': seq<Row>, lease: Lease)
    requires LeaseOf(p, rows, q, rows', lease)
    ensures LeaseOf(Evicted(p, lease.order), rows, q, rows', Prepare(lease))
  {
    hide Flatten, Tables, GrownAs, NoDup;
    var e := Evicted(p, lease.order);
    var l := Prepare(lease);
    assert Without(e.index, ToSet(lease.order)) == Without(p.index, ToSet(lease.order));
    forall b: nat | b < |e.blocks| ensures q.blocks[b] == if b in lease.order then FRESH else e.blocks[b] {
    }
    assert l.states == Snapshot(e, ToSet(l.order) + Tables(rows));
    forall h | h in e.index ensures e.blocks[e.index[h]].hash == h {
      assert e.index[h] !in lease.order;
    }
  }

  /** The pool after a lease keeps exactly these blocks. */
  function Keeping(p: Pool, kept: seq<nat>): Pool {
    Pool(seq(|p.blocks|, b requires 0 <= b < |p.blocks| => if b in kept then FRESH else p.blocks[b]),
         Minus(p.free, ToSet(kept)), p.used + ToSet(kept), Without(p.index, ToSet(kept)))
  }

  lemma {:induction false} KeptInOrder(leased: seq<LeaseRow>, keep: seq<int>, b: nat)
    requires KeepFits(leased, keep) && b in Kept(leased, keep)
    ensures b in Flatten(leased)
  {
    if leased != [] && b !in leased[0].appended[..keep[0]] {
      assert KeepFits(leased[1..], keep[1..]) by {
        assert forall i :: 0 <= i < |keep| - 1 ==> keep[1..][i] == keep[i + 1] && leased[1..][i] == leased[i + 1];
      }
      KeptInOrder(leased[1..], keep[1..], b);
    }
  }

  ghost function Released(lease: Lease, keep: seq<int>): map<nat, Block>
    requires KeepFits(lease.rows, keep)
  {
    map b | b in lease.states && b in lease.order && b !in ToSet(Kept(lease.rows, keep)) :: lease.states[b]
  }

  /** Restoring the released blocks leaves the kept ones fresh and all others as they were. */
  lemma KeptBlocks(p: Pool, rows: seq<Row>, q: Pool, rows': seq<Row>, lease: Lease, keep: seq<int>)
    requires LeaseOf(p, rows, q, rows', lease) && KeepFits(lease.rows, keep)
    ensures RestoreBlocks(q.blocks, Released(lease, keep)) == Keeping(p, Kept(lease.rows, keep)).blocks
  {
    var kept := Kept(lease.rows, keep);
    forall b | b in kept ensures b in lease.order { KeptInOrder(lease.rows, keep, b); }
    hide Flatten, Tables, Minus, Kept, KeepFits, IndexAgrees, Without;
    assert RestoreBlocks(q.blocks, Released(lease, keep)) == Keeping(p, kept).blocks;
  }

  lemma KeptRows(p: Pool, rows: seq<Row>, q: Pool, rows': seq<Row>, lease: Lease, keep: seq<int>)
    requires LeaseOf(p, rows, q, rows', lease) && KeepFits(lease.rows, keep)
    ensures var r := KeepRows(rows', lease.rows, keep);
      && |r| == |rows|
      && forall i :: 0 <= i < |rows| ==> r[i] == rows[i].(table := rows[i].table + lease.rows[i].appended[..keep[i]])
  {
    hide Flatten, Tables, Took, IndexAgrees;
    forall i | 0 <= i < |rows|
      ensures KeepRows(rows', lease.rows, keep)[i] == rows[i].(table := rows[i].table + lease.rows[i].appended[..keep[i]])
    {
      assert GrownAs(rows[i], rows'[i], lease.rows[i]);
    }
  }

  lemma KeepingIs(p: Pool, kept: seq<nat>, blocks: seq<Block>)
    requires blocks == Keeping(p, kept).blocks
    ensures Keeping(p, kept) ==
      Pool(blocks, Minus(p.free, ToSet(kept)), p.used + ToSet(kept), Without(p.index, ToSet(kept)))
  {
  }

  /** Finalizing keeps the chosen prefixes; every other leased block is back at its
      old place of the free list with its old contents. */
  lemma FinalizeKeeping(p: Pool, rows: seq<Row>, q: Pool, rows': seq<Row>, lease: Lease, keep: seq<int>)
    requires LeaseOf(p, rows, q, rows', lease) && KeepFits(lease.rows, keep)
    ensures var r := Finalize(q, rows', lease, keep);
      && r.Settled? && r.pool == Keeping(p, Kept(lease.rows, keep)) && |r.rows| == |rows|
      && forall i :: 0 <= i < |rows| ==>
          r.rows[i] == rows[i].(table := rows[i].table + lease.rows[i].appended[..keep[i]])
  {
    hide Live, Flatten, Tables, Minus, Kept, KeepFits, IndexAgrees, RestoreBlocks, Keeping, KeepRows, Took, GrownAs;
    LeaseIsLive(p, rows, q, rows', lease);
    KeptBlocks(p, rows, q, rows', lease, keep);
    KeptRows(p, rows, q, rows', lease, keep);
    KeepingIs(p, Kept(lease.rows, keep), RestoreBlocks(q.blocks, Released(lease, keep)));
  }

  lemma MinusNone(q: seq<nat>)
    ensures Minus(q, {}) == q
  {
  }

  lemma {:induction false} KeptNone(leased: seq<LeaseRow>, keep: seq<int>)
    requires KeepFits(leased, keep) && forall i :: 0 <= i < |keep| ==> keep[i] == 0
    ensures Kept(leased, keep) == []
  {
    if leased != [] {
      assert forall i :: 0 <= i < |keep| - 1 ==> keep[1..][i] == keep[i + 1] && leased[1..][i] == leased[i + 1];
      KeptNone(leased[1..], keep[1..]);
    }
  }

  lemma KeepingNone(p: Pool)
    ensures Keeping(p, []) == p
  {
    MinusNone(p.free);
    assert ToSet([]) == {};
    assert Without(p.index, {}) == p.index;
    assert Keeping(p, []).blocks == p.blocks;
  }

  lemma SameLengths(p: Pool, rows: seq<Row>, q: Pool, rows': seq<Row>, lease: Lease, keep: seq<int>)
    requires LeaseOf(p, rows, q, rows', lease) && KeepFits(lease.rows, keep)
    ensures |rows| == |lease.rows| == |keep|
  {
  }

  /** Keeping nothing is rolling back. */
  lemma FinalizeNothing(p: Pool, rows: seq<Row>, q: Pool, rows': seq<Row>, lease: Lease, keep: seq<int>)
    requires LeaseOf(p, rows, q, rows', lease) && KeepFits(lease.rows, keep)
    requires forall i :: 0 <= i < |keep| ==> keep[i] == 0
    ensures Finalize(q, rows', lease, keep) == Rollback(q, rows', lease)
  {
    hide LeaseOf, Finalize, Rollback, Kept, KeepFits, Keeping;
    FinalizeKeeping(p, rows, q, rows', lease, keep);
    RollbackExact(p, rows, q, rows', lease);
    KeptNone(lease.rows, keep);
    KeepingNone(p);
    var r := Finalize(q, rows', lease, keep);
    SameLengths(p, rows, q, rows', lease, keep);
    forall i | 0 <= i < |rows| ensures r.rows[i] == rows[i] {
      assert rows[i].table + lease.rows[i].appended[..0] == rows[i].table;
    }
    assert r.rows == rows;
  }

  lemma {:induction false} MinusIs(q: seq<nat>, gone: set<nat>)
    requires NoDup(q)
    ensures NoDup(Minus(q, gone)) && forall x :: x in Minus(q, gone) <==> x in q && x !in gone
  {
    if q != [] {
      var r := q[1..];
      assert q == [q[0]] + r;
      assert NoDup(r) by { assert forall i :: 0 <= i < |r| ==> r[i] == q[i + 1]; }
      MinusIs(r, gone);
      if q[0] !in gone {
        var m := Minus(r, gone);
        assert q[0] !in r by {
          forall i | 0 <= i < |r| ensures r[i] != q[0] { assert q[i + 1] != q[0]; }
        }
        forall i | 0 <= i < |m| ensures m[i] != q[0] { assert m[i] in m; }
      }
    }
  }

  /** The kept blocks enter their tables fresh and exclusive; all other owners and
      the agreement of the index are untouched. */
  lemma KeepingKeeps(p: Pool, kept: seq<nat>, m: multiset<nat>)
    requires Wf(p) && Owned(p, m) && NoDup(kept) && forall b :: b in kept ==> b in p.free
    ensures var q := Keeping(p, kept);
      Wf(q) && Owned(q, m + multiset(kept)) && Keeps(p, q, m) && Shrinks(p, q)
  {
    MinusIs(p.free, ToSet(kept));
    var q := Keeping(p, kept);
    forall b | b in kept ensures multiset(kept)[b] == 1 && m[b] == 0 && b < |p.blocks| {
      SeqOnce(kept, b);
      assert b in p.free;
    }
    forall b: nat | b < |q.blocks|
      ensures q.blocks[b].refs == (m + multiset(kept))[b] && (b in q.used <==> b in m + multiset(kept))
    {
      assert b in multiset(kept) <==> b in kept;
    }
    forall b | b in m + multiset(kept) ensures b < |q.blocks| {
      assert b in m || b in kept;
    }
    assert Wf(q);
  }

  lemma SeqOnce(q: seq<nat>, b: nat)
    requires NoDup(q) && b in q
    ensures multiset(q)[b] == 1
  {
    var i :| 0 <= i < |q| && q[i] == b;
    assert q == q[..i] + [b] + q[i + 1..];
    assert b !in q[..i] && b !in q[i + 1..];
  }
}
