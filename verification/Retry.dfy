/** A failed speculative cycle and the schedule that retries it. The abort hands back
    exactly the blocks the schedule had appended, in order, so the retry replans the
    same decode batch on the same physical blocks; whether it also starts a prefill is
    decided by the admission guard alone. */
module Retry {
  import opened Arith
  import opened Types
  import opened Pools
  import opened Allocator
  import opened Queues
  import opened Evolution
  import opened Scheduling
  import opened States
  import opened Progress
  import opened Commit
  import opened Leases
  import opened Speculation
  import opened Transactions
  import opened Undo
  import opened Protocol

  // ----- the decode batch comes back -----

  /** Undoing a batch front row last is undoing it after all the others. */
  lemma {:induction false} UndoFront(c: Config, p: Pool, s: Row, q: seq<Row>)
    requires c.Valid()
    ensures var (p1, q') := UndoAll(c, p, q);
      var (p2, s') := UndoRow(c, p1, s);
      UndoAll(c, p, [s] + q) == (p2, [s'] + q')
    decreases |q|
  {
    hide UndoRow;
    var all := [s] + q;
    if q == [] {
      assert all[..0] == [];
      var (p1, s') := UndoRow(c, p, s);
      assert UndoAll(c, p1, []) == (p1, []);
      assert [] + [s'] == [s'] + [];
    } else {
      var last, front := q[|q| - 1], q[..|q| - 1];
      assert all[|all| - 1] == last && all[..|all| - 1] == [s] + front;
      var (p1, t) := UndoRow(c, p, last);
      UndoFront(c, p1, s, front);
      var (p2, front') := UndoAll(c, p1, front);
      var (p3, s') := UndoRow(c, p2, s);
      assert [s'] + front' + [t] == [s'] + (front' + [t]);
    }
  }

  lemma TakeBack(p: Pool, b: nat)
    requires Wf(p) && b < |p.blocks| && p.blocks[b] == FRESH && b in p.used
    ensures Take(Popped(p, b)) == p
  {
    var q := Popped(p, b);
    assert q.free[1..] == p.free;
    assert q.blocks[b := FRESH] == p.blocks;
    assert p.used - {b} + {b} == p.used;
  }

  lemma RedoFacts(c: Config, p: Pool, s: Row, a: seq<Row>)
    requires c.Valid() && Held(c, p, [s] + a) && Planned(s)
    ensures Wf(p) && |s.table| == CeilDiv(s.cached + 1, c.blockSize) && |s.toks| == s.cached + 1
    ensures Appended(c, s) ==> s.table != [] && var b := s.table[|s.table| - 1];
      b < |p.blocks| && p.blocks[b] == FRESH && b in p.used
  {
    assert ([s] + a)[0] == s;
    if Appended(c, s) { SuffixIsFresh(c, p, [s] + a, 0); }
  }

  /** Planning an undone row takes back the very block that was undone. */
  lemma RedoRow(c: Config, p: Pool, s: Row, a: seq<Row>)
    requires c.Valid() && Held(c, p, [s] + a) && Planned(s)
    ensures var (q, s') := UndoRow(c, p, s);
      CanAppend(c, q, s') && MayAppend(c, q, s'.(sched := 1, prefill := false)) == (p, s)
  {
    RedoFacts(c, p, s, a);
    AppendTest(s.cached, c.blockSize);
    hide Held, Wf, Popped, Grow, CeilDiv;
    if Appended(c, s) {
      var b := s.table[|s.table| - 1];
      GrowBack(p, b, s.table[..|s.table| - 1]);
      assert s.table[..|s.table| - 1] + [b] == s.table;
    }
  }

  lemma GrowBack(p: Pool, b: nat, t: seq<nat>)
    requires Wf(p) && b < |p.blocks| && p.blocks[b] == FRESH && b in p.used
    ensures Grow(Popped(p, b), t, 1) == (p, t + [b]) && |Popped(p, b).free| >= 1
  {
    TakeBack(p, b);
    PoppedFree(p, b);
    hide Take, Popped, Wf;
    assert Grow(Popped(p, b), t, 1) == Grow(Take(Popped(p, b)), t + [b], 0);
    GrowNone(p, t + [b]);
  }

  lemma PoppedFree(p: Pool, b: nat)
    ensures Popped(p, b).free == [b] + p.free
  {
  }

  /** One round of the decode loop when the front row has room. */
  lemma DecodeTakes(c: Config, y: Sys, done: seq<Row>, p: Pool, s: Row)
    requires c.Valid() && y.running != [] && |done| < c.maxSeqs && CanAppend(c, y.pool, y.running[0])
    requires MayAppend(c, y.pool, y.running[0].(sched := 1, prefill := false)) == (p, s)
    ensures DecodePhase(c, y, done) == DecodePhase(c, Sys(p, y.waiting, y.running[1..], y.mid), done + [s])
  {
    hide CanAppend, MayAppend;
    var y0 := y.(running := y.running[1..]);
    assert MakeRoom(c, y0, y.running[0]) == Ok(Room(y0, true));
  }

  lemma {:induction false} RedoAll(c: Config, p: Pool, w: seq<Row>, mid: Option<nat>, rows: seq<Row>, others: seq<Row>, done: seq<Row>)
    requires c.Valid() && Held(c, p, rows + others) && AllPlanned(rows) && |done| + |rows| <= c.maxSeqs
    ensures var (q, rows') := UndoAll(c, p, rows);
      DecodePhase(c, Sys(q, w, rows', mid), done) == Ok(Decoded(Sys(p, w, [], mid), done + rows))
    decreases |rows|
  {
    hide Held, AllPlanned, UndoRow, CanAppend, MayAppend, DecodePhase, UndoAll;
    if rows == [] {
      RedoNone(c, p, w, mid, done);
    } else {
      var s, tail := rows[0], rows[1..];
      assert rows == [s] + tail;
      PlannedCons(s, tail);
      UndoFront(c, p, s, tail);
      var (p1, tail') := UndoAll(c, p, tail);
      UndoneHeld(c, p, s, tail, others);
      RedoRow(c, p1, s, tail' + others);
      var (q, s') := UndoRow(c, p1, s);
      var y := Sys(q, w, [s'] + tail', mid);
      assert y.running[1..] == tail';
      DecodeTakes(c, y, done, p1, s);
      RedoAll(c, p, w, mid, tail, [s] + others, done + [s]);
      assert done + [s] + tail == done + rows;
    }
  }

  lemma RedoNone(c: Config, p: Pool, w: seq<Row>, mid: Option<nat>, done: seq<Row>)
    requires c.Valid()
    ensures UndoAll(c, p, []) == (p, []) && DecodePhase(c, Sys(p, w, [], mid), done) == Ok(Decoded(Sys(p, w, [], mid), done + []))
  {
    assert done + [] == done;
  }

  lemma PlannedCons(s: Row, q: seq<Row>)
    requires AllPlanned([s] + q)
    ensures Planned(s) && AllPlanned(q)
  {
    hide Planned;
    assert ([s] + q)[0] == s;
    forall i | 0 <= i < |q| ensures Planned(q[i]) { assert ([s] + q)[i + 1] == q[i]; }
  }

  /** Undoing the later rows leaves the front row's blocks in place. */
  lemma UndoneHeld(c: Config, p: Pool, s: Row, tail: seq<Row>, others: seq<Row>)
    requires c.Valid() && Held(c, p, [s] + tail + others) && AllPlanned(tail)
    ensures Held(c, p, tail + ([s] + others))
    ensures var (p1, tail') := UndoAll(c, p, tail); Held(c, p1, [s] + (tail' + others))
  {
    hide Held, Planned, UndoAll, Perm;
    ShiftPerm(s, tail, others);
    assert [s] + tail + others == [s] + (tail + others);
    HeldPerm(c, p, [s] + (tail + others), tail + ([s] + others));
    UndoAllKeeps(c, p, tail, [s] + others);
    var (p1, tail') := UndoAll(c, p, tail);
    PermBack(s, tail', others);
    HeldPerm(c, p1, tail' + ([s] + others), [s] + (tail' + others));
  }

  lemma PermBack(s: Row, q: seq<Row>, others: seq<Row>)
    ensures Perm(q + ([s] + others), [s] + (q + others))
  {
  }

  /** The decode phase of the retry rebuilds the scheduled state exactly: rows, order,
      tables, free list, used set, block metadata and index. */
  lemma RetryReplans(c: Config, y: Sys)
    requires c.Valid() && PureDecode(c, y)
    ensures UndoSchedule(c, y).Undone?
    ensures DecodePhase(c, UndoSchedule(c, y).sys, []) == Ok(Decoded(y.(running := []), y.running))
  {
    PureHeld(c, y);
    PureSizes(c, y);
    hide Held, PureDecode, UndoAllowed, DecodePhase, AllPlanned;
    UndoIsAllowed(c, y.pool, y.running, y.waiting);
    RedoAll(c, y.pool, y.waiting, y.mid, y.running, y.waiting, []);
    assert [] + y.running == y.running;
  }

  // ----- the fill phase of the retry -----

  /** The guard that decides whether a decode batch is followed by prefill work: an
      empty waiting queue, a used-up row or token budget, or refused admission. */
  predicate AdmissionClosed(c: Config, y: Sys)
    requires c.Valid()
  {
    || y.waiting == [] || |y.running| >= c.maxSeqs || |y.running| >= c.budget
    || (y.waiting[0].table == [] && CanAllocate(c, y.pool, y.waiting[0]).None?)
  }

  /** What the retry schedules, in terms of the state the abort undid. */
  lemma RetryIs(c: Config, y: Sys)
    requires c.Valid() && PureDecode(c, y)
    ensures var z := UndoSchedule(c, y);
      && z.Undone? && Schedule(c, z.sys).Ok?
      && FillPhase(c, y, Ids(y.running), |y.running|).Ok?
      && var f := FillPhase(c, y, Ids(y.running), |y.running|).value;
         var r := Schedule(c, z.sys).value;
         r.sys == f.sys && r.ids == f.ids && r.prefill == (|f.ids| > |y.running|)
  {
    PureNonEmpty(c, y);
    hide PureDecode, UndoSchedule, DecodePhase, FillPhase, Idle, AllPlanned, Ready, Evolves, Planned, MidConsistent, Schedule,
         UndoneRow;
    UndoKeeps(c, y);
    var z := UndoSchedule(c, y).sys;
    RetryReplans(c, y);
    ScheduleProgress(c, z);
    IdleChecked(c, z);
    ScheduleFrom(c, z, y);
  }

  /** A schedule whose decode phase ends in y goes on as the fill phase of y. */
  lemma ScheduleFrom(c: Config, z: Sys, y: Sys)
    requires c.Valid() && MidConsistent(z) && Schedule(c, z).Ok?
    requires DecodePhase(c, z, []) == Ok(Decoded(y.(running := []), y.running))
    ensures FillPhase(c, y, Ids(y.running), |y.running|).Ok?
    ensures var f := FillPhase(c, y, Ids(y.running), |y.running|).value;
      var r := Schedule(c, z).value;
      r.sys == f.sys && r.ids == f.ids && r.prefill == (|f.ids| > |y.running|)
  {
    hide DecodePhase, FillPhase, MidConsistent;
    assert y.(running := []).(running := y.running + []) == y by { assert y.running + [] == y.running; }
  }

  lemma PureNonEmpty(c: Config, y: Sys)
    requires c.Valid() && PureDecode(c, y)
    ensures y.running != []
  {
  }

  /** The retried schedule has the same decode rows first, in the same order, on the
      same physical blocks; anything further comes after them. */
  lemma RetrySameRows(c: Config, y: Sys)
    requires c.Valid() && PureDecode(c, y)
    ensures var z := UndoSchedule(c, y);
      && z.Undone? && Schedule(c, z.sys).Ok?
      && var r := Schedule(c, z.sys).value; y.running <= r.sys.running && Ids(y.running) <= r.ids
  {
    PureFilling(c, y);
    hide PureDecode, UndoSchedule, Schedule, FillPhase, Filling, Common, Evolves, AllComplete;
    RetryIs(c, y);
    FillPhaseKeeps(c, y, Ids(y.running), |y.running|);
  }

  lemma PureFilling(c: Config, y: Sys)
    requires c.Valid() && PureDecode(c, y)
    ensures Filling(c, y, Ids(y.running), |y.running|)
  {
    hide Common, Planned, Complete;
    PlannedTokens(y.running);
    assert ChunkTokens(y) == 0;
  }

  /** Still no prefill, exactly when admission is closed for the undone state. */
  lemma RetryPrefill(c: Config, y: Sys)
    requires c.Valid() && PureDecode(c, y) && (y.mid.Some? ==> |y.running| >= c.maxSeqs || |y.running| >= c.budget)
    ensures var z := UndoSchedule(c, y);
      && z.Undone? && Schedule(c, z.sys).Ok?
      && (!Schedule(c, z.sys).value.prefill <==> AdmissionClosed(c, y))
      && (AdmissionClosed(c, y) ==>
            Schedule(c, z.sys).value == Scheduled(y, Ids(y.running), false))
  {
    PureFilling(c, y);
    PureWaiting(c, y);
    hide PureDecode, UndoSchedule, Schedule, FillPhase, Filling, Common, Evolves, AllComplete, CanAllocate;
    RetryIs(c, y);
    FillPhaseKeeps(c, y, Ids(y.running), |y.running|);
    FillDecides(c, y);
  }

  lemma PureWaiting(c: Config, y: Sys)
    requires c.Valid() && PureDecode(c, y)
    ensures Common(c, y, []) && NoChunk(y) && |Ids(y.running)| == |y.running|
    ensures y.mid.None? && y.waiting != [] ==> y.waiting[0].table == []
  {
    hide Held;
  }

  /** A fresh head is refused exactly when the whole-request admission refuses it. */
  lemma PlaceFresh(c: Config, p: Pool, s: Row, remaining: nat)
    requires c.Valid() && s.table == []
    ensures Place(c, p, s, remaining) == NotAdmitted <==> CanAllocate(c, p, s).None?
    ensures Place(c, p, s, remaining) != NoBlocks
  {
    hide CanAllocate, AllocateIncremental;
  }

  lemma FillDecides(c: Config, y: Sys)
    requires c.Valid() && Filling(c, y, Ids(y.running), |y.running|)
    requires Common(c, y, []) && NoChunk(y) && (y.mid.Some? ==> |y.running| >= c.maxSeqs || |y.running| >= c.budget)
    requires y.mid.None? && y.waiting != [] ==> y.waiting[0].table == []
    ensures FillPhase(c, y, Ids(y.running), |y.running|).Ok?
    ensures var f := FillPhase(c, y, Ids(y.running), |y.running|).value;
      && (AdmissionClosed(c, y) ==> f == Filled(y, Ids(y.running)))
      && (!AdmissionClosed(c, y) ==> |f.ids| > |y.running|)
  {
    hide Filling, Common, Evolves, AllComplete, CanAllocate, Place;
    var n := |y.running|;
    FillPhaseKeeps(c, y, Ids(y.running), n);
    if !(y.waiting == [] || n >= c.maxSeqs || n >= c.budget) {
      var s := y.waiting[0];
      PlaceFresh(c, y.pool, s, c.budget - n);
      if CanAllocate(c, y.pool, s).Some? {
        HeadPlaced(c, y);
        var r := Place(c, y.pool, s, c.budget - n);
        if r.row.sched >= r.work { FillGrows(c, y, r.pool, r.row); }
      }
    }
  }

  lemma HeadPlaced(c: Config, y: Sys)
    requires c.Valid() && Common(c, y, []) && NoChunk(y) && y.waiting != [] && |y.running| < c.budget
    requires y.waiting[0].table == [] && CanAllocate(c, y.pool, y.waiting[0]).Some?
    ensures Place(c, y.pool, y.waiting[0], c.budget - |y.running|).Placed?
  {
    hide Common, CanAllocate, Place, PlacedOk, Owners;
    var rest := Owners(y.waiting[1..] + y.running);
    PlaceHead(c, y, c.budget - |y.running|);
    PlaceFresh(c, y.pool, y.waiting[0], c.budget - |y.running|);
    PlacedIs(c, y.pool, y.waiting[0], c.budget - |y.running|, rest);
  }

  /** Once the head is placed whole, the batch keeps its id. */
  lemma FillGrows(c: Config, y: Sys, pool: Pool, row: Row)
    requires c.Valid() && Filling(c, y, Ids(y.running), |y.running|) && Common(c, y, []) && NoChunk(y)
    requires y.waiting != [] && |y.running| < c.budget
    requires var r := Place(c, y.pool, y.waiting[0], c.budget - |y.running|);
      r.Placed? && r.pool == pool && r.row == row && r.row.sched >= r.work
    ensures var s := y.waiting[0];
      var ids := Ids(y.running) + [s.id];
      var f := FillPhase(c, Placing(y, pool, row, 0), ids, |y.running| + row.sched);
      f.Ok? && ids <= f.value.ids
  {
    hide Filling, Common, Evolves, AllComplete, RowOk, From, Wf, Owned, Keeps, Shrinks, Place;
    PlaceHead(c, y, c.budget - |y.running|);
    FillComplete(c, y, Ids(y.running), |y.running|, pool, row);
    FillPhaseKeeps(c, Placing(y, pool, row, 0), Ids(y.running) + [y.waiting[0].id], |y.running| + row.sched);
  }

  // ----- after target writes were prepared -----

  lemma {:induction false} HitsShrink(c: Config, p: Pool, q: Pool, toks: seq<Token>, i: nat, limit: nat, h: int)
    requires c.Valid() && Shrinks(p, q) && |q.blocks| == |p.blocks|
    requires forall x :: x in q.index && q.index[x] < |p.blocks| ==> q.blocks[q.index[x]].toks == p.blocks[q.index[x]].toks
    ensures Hits(c, q, toks, i, limit, h) <= Hits(c, p, toks, i, limit, h)
    decreases limit - i
  {
    if i < limit {
      hide BlockTokens;
      var d := c.hash(h, BlockTokens(toks, i, c.blockSize));
      if d in q.index {
        assert p.index[d] == q.index[d];
        HitsShrink(c, p, q, toks, i + 1, limit, d);
      }
    }
  }

  lemma {:induction false} CountOutPrefix(a: seq<nat>, b: seq<nat>, used: set<nat>)
    requires a <= b
    ensures |a| - CountOut(a, used) <= |b| - CountOut(b, used)
  {
    if a == [] {
      CountOutMono(b, used, used);
    } else {
      assert a[0] == b[0] && a[1..] <= b[1..];
      CountOutPrefix(a[1..], b[1..], used);
    }
  }

  /** Losing cache entries of free blocks never makes an admission succeed. */
  lemma EvictionAdmitsNoMore(c: Config, p: Pool, order: seq<nat>, s: Row)
    requires c.Valid() && CanAllocate(c, p, s).None?
    ensures CanAllocate(c, Evicted(p, order), s).None?
  {
    var q := Evicted(p, order);
    var n := s.NumBlocks(c.blockSize);
    var limit := if n == 0 then 0 else n - 1;
    forall x | x in q.index && q.index[x] < |p.blocks| ensures q.blocks[q.index[x]].toks == p.blocks[q.index[x]].toks {
      assert q.index[x] !in order;
    }
    HitsShrink(c, p, q, s.toks, 0, limit, NO_HASH);
    CountOutPrefix(Hits(c, q, s.toks, 0, limit, NO_HASH), Hits(c, p, s.toks, 0, limit, NO_HASH), p.used);
  }

  /** The fill phase of the first schedule gave nobody's blocks back. */
  predicate FillKept(c: Config, y: Sys)
    requires c.Valid()
  {
    match DecodePhase(c, y, [])
    case Err(_) => false
    case Ok(Decoded(y1, done)) =>
      match Schedule(c, y)
      case Err(_) => false
      case Ok(s) => s.sys.waiting == y1.waiting && s.sys.mid == y1.mid
  }

  /** A pure decode schedule whose fill phase reclaimed nothing leaves admission closed. */
  lemma PureIsClosed(c: Config, y: Sys)
    requires c.Valid() && Idle(c, y) && y.running != [] && Schedule(c, y).Ok? && !Schedule(c, y).value.prefill
    ensures var x := Schedule(c, y).value.sys;
      && (x.mid.Some? ==> |x.running| >= c.maxSeqs || |x.running| >= c.budget)
      && (FillKept(c, y) ==> AdmissionClosed(c, x))
  {
    hide Common, Evolves, DecodePhase, FillPhase, Planned, Complete, MidConsistent;
    assert Rows(y) + [] == Rows(y);
    ScheduleProgress(c, y);
    DecodePhaseKeeps(c, y, []);
    var Decoded(y1, done) := DecodePhase(c, y, []).value;
    AfterDecode(c, y1, done);
    var y2 := y1.(running := done + y1.running);
    assert done + y1.running == done;
    FillStops(c, y2);
  }

  lemma FillStops(c: Config, y: Sys)
    requires c.Valid() && Filling(c, y, Ids(y.running), |y.running|) && FillPhase(c, y, Ids(y.running), |y.running|).Ok?
    requires |FillPhase(c, y, Ids(y.running), |y.running|).value.ids| <= |y.running| && y.running != []
    ensures var x := FillPhase(c, y, Ids(y.running), |y.running|).value.sys;
      && (x.mid.Some? ==> |x.running| >= c.maxSeqs || |x.running| >= c.budget)
      && (x.waiting == y.waiting && x.mid == y.mid ==> AdmissionClosed(c, x))
  {
    FillingIs(c, y);
    var n := |y.running|;
    if !(y.waiting == [] || n >= c.maxSeqs || n >= c.budget) {
      hide Filling, Common, Evolves, AllComplete, CanAllocate, AllocateIncremental, FillPhase, Extend;
      if y.mid.None? {
        FillDecides(c, y);
      } else {
        FillMid(c, y);
      }
    }
  }

  lemma FillingIs(c: Config, y: Sys)
    requires c.Valid() && Filling(c, y, Ids(y.running), |y.running|)
    ensures Common(c, y, []) && NoChunk(y) && (y.mid.None? && y.waiting != [] ==> y.waiting[0].table == [])
  {
    hide Held;
  }

  /** With budget left, a partial head is either continued or reclaimed. */
  lemma FillMid(c: Config, y: Sys)
    requires c.Valid() && Filling(c, y, Ids(y.running), |y.running|) && y.mid.Some? && y.running != []
    requires Common(c, y, []) && NoChunk(y) && y.waiting != [] && |y.running| < c.maxSeqs && |y.running| < c.budget
    ensures FillPhase(c, y, Ids(y.running), |y.running|).Ok?
    ensures var f := FillPhase(c, y, Ids(y.running), |y.running|).value;
      |f.ids| > |y.running| || f.sys.mid.None?
  {
    hide Filling, Common, Evolves, AllComplete, Place, RowOk, From, Wf, Owned, Keeps, Shrinks, NoChunk, Owners, Preempted, Release;
    var n := |y.running|;
    var s := y.waiting[0];
    FillPhaseKeeps(c, y, Ids(y.running), n);
    PlaceHead(c, y, c.budget - n);
    var r := Place(c, y.pool, s, c.budget - n);
    if r == NoBlocks {
      FillReclaims(c, y, Ids(y.running), n);
    } else if r.row.sched >= r.work {
      FillGrows(c, y, r.pool, r.row);
    }
  }

  /** The whole cycle. Schedule a pure decode batch, plan, optionally prepare target
      writes, abort, schedule again: the decode rows are the same, in the same order,
      on the same blocks. There is still no prefill exactly when admission is closed
      after the abort, which always holds if the first schedule reclaimed nothing
      while filling. */
  lemma RetryInvisible(c: Config, y: Sys, routeCap: nat, certified: bool, prepared: bool)
    requires c.Valid() && Idle(c, y) && y.running != []
    requires Schedule(c, y).Ok? && !Schedule(c, y).value.prefill
    requires PlanSpeculative(c, Schedule(c, y).value.sys, routeCap, certified).Speculate?
    ensures var x := Schedule(c, y).value.sys;
      var plan := PlanSpeculative(c, x, routeCap, certified);
      var lease := if prepared then Prepare(plan.lease) else plan.lease;
      var b := LeaseBase(x, plan.lease, prepared);
      var z := AbortSpeculative(c, x.(pool := plan.pool, running := plan.rows), lease);
      && z.Undone? && Schedule(c, z.sys).Ok?
      && var r := Schedule(c, z.sys).value;
         && x.running <= r.sys.running && Ids(x.running) <= r.ids
         && (!r.prefill <==> AdmissionClosed(c, b))
         && (!r.prefill ==> r == Scheduled(b, Ids(x.running), false))
         && (FillKept(c, y) ==> !r.prefill)
  {
    var x := Schedule(c, y).value.sys;
    assert PureDecode(c, x) by { ScheduledPure(c, y); }
    hide Idle, PureDecode, Schedule, PlanSpeculative, Leased, AbortSpeculative, UndoSchedule, Prepare, Evicted,
         CanAllocate, FillKept;
    PlanKeeps(c, x, routeCap, certified);
    var plan := PlanSpeculative(c, x, routeCap, certified);
    var y1 := x.(pool := plan.pool, running := plan.rows);
    assert y1 == Sys(plan.pool, x.waiting, plan.rows, x.mid);
    var lease := if prepared then Prepare(plan.lease) else plan.lease;
    if prepared { PrepareKeeps(c, x, y1, plan.lease, plan.k); }
    assert lease.order == plan.lease.order by { PrepareOrder(plan.lease); }
    AbortKeeps(c, x, y1, lease, plan.k, prepared);
    LeaseBasePure(c, x, y1, lease, plan.k, prepared);
    var b := LeaseBase(x, lease, prepared);
    PureIsClosed(c, y);
    RetryPrefill(c, b);
    RetrySameRows(c, b);
    if FillKept(c, y) && prepared && x.waiting != [] {
      if CanAllocate(c, x.pool, x.waiting[0]).None? { EvictionAdmitsNoMore(c, x.pool, lease.order, x.waiting[0]); }
    }
  }

}
