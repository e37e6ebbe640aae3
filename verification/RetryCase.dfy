/** A run whose retry does start a prefill. The second schedule reclaims a partial prefill
    while filling, and the block it gives back lets the retry admit a request that was
    waiting behind it. */
module RetryCase {
  import opened Arith
  import opened Types
  import opened Pools
  import opened Allocator
  import opened Queues
  import opened Scheduling
  import opened States
  import opened Commit
  import opened Leases
  import opened Speculation
  import opened Transactions
  import opened Undo
  import opened Truth
  import opened TruthSteps
  import opened Requests
  import opened Protocol
  import opened Safety
  import opened Retry

  /** Blocks of four, three of them, a budget of seven tokens, one proposal per row. */
  function Small(): Config {
    Config(4, 3, 3, 7, 100, 1, 0, None, (h: int, b: seq<Token>) => 0)
  }

  const LONG: seq<Token> := [5, 5, 5, 5]
  const WIDE: seq<Token> := [7, 7, 7, 7, 7]

  function Unused(): Block { Block(0, NO_HASH, []) }

  function Start(): Sys { Sys(FreshPool(Small()), [], [], None) }

  /** All three requests wait. */
  function Queued(): Sys {
    Sys(FreshPool(Small()), [NewRow(0, LONG, 3, true), NewRow(1, WIDE, 1, true), NewRow(2, [9], 1, true)], [], None)
  }

  // The decoder and the partial prefill, step by step.

  function First(cached: nat, sched: nat, toks: seq<Token>, prefill: bool, table: seq<nat>): Row {
    Row(0, Running, toks, 4, cached, 0, sched, prefill, table, 3, true)
  }

  function Second(cached: nat, sched: nat): Row {
    Row(1, Waiting, WIDE, 5, cached, 0, sched, true, [1], 1, true)
  }

  function Third(): Row { NewRow(2, [9], 1, true) }

  /** The first request is whole, the second has three of its five tokens. */
  function Prefilling(): Sys {
    Sys(Pool([FRESH, FRESH, Unused()], [2], {0, 1}, map[]), [Second(0, 3), Third()], [First(0, 4, LONG, true, [0])], Some(1))
  }

  function Published(): Block { Block(1, 0, LONG) }

  function Grown(): seq<Token> { LONG + [6] }

  /** Between the two steps. */
  function Between(): Sys {
    Sys(Pool([Published(), FRESH, Unused()], [2], {0, 1}, map[0 := 0]), [Second(3, 0), Third()],
        [First(4, 0, Grown(), true, [0])], Some(1))
  }

  /** The decoder took the last block, so the partial prefill was reclaimed. */
  function Reclaimed(): Sys {
    Sys(Pool([Published(), Unused(), FRESH], [1], {0, 2}, map[0 := 0]), [Third(), Preempted(Second(3, 0))],
        [First(4, 1, Grown(), false, [0, 2])], None)
  }

  // ----- the first step -----

  lemma Four(n: nat, k: nat)
    requires 4 * k - 4 < n <= 4 * k
    ensures CeilDiv(n, 4) == k
  {
    CeilIs(n, 4, k);
  }

  lemma SizesOk()
    ensures Small().Valid() && CeilDiv(6, 4) == 2 && CeilDiv(5, 4) == 2 && CeilDiv(4, 4) == 1 && CeilDiv(3, 4) == 1 && CeilDiv(1, 4) == 1
  {
    Four(6, 2); Four(5, 2); Four(4, 1); Four(3, 1); Four(1, 1);
  }

  lemma NoHits(p: Pool, toks: seq<Token>, limit: nat)
    requires p.index == map[]
    ensures Hits(Small(), p, toks, 0, limit, NO_HASH) == []
  {
  }

  function AfterFirst(): Pool { Pool([FRESH, Unused(), Unused()], [1, 2], {0}, map[]) }
  function AfterSecond(): Pool { Pool([FRESH, FRESH, Unused()], [2], {0, 1}, map[]) }

  lemma Takes(p: Pool, q: Pool)
    requires p.free != [] && p.free[0] < |p.blocks| && p.blocks[p.free[0]].hash == NO_HASH
    requires q == Pool(p.blocks[p.free[0] := FRESH], p.free[1..], p.used + {p.free[0]}, p.index)
    ensures Grow(p, [], 1) == (q, [p.free[0]])
  {
    assert Take(p) == q;
    assert [] + [p.free[0]] == [p.free[0]];
    assert Grow(q, [p.free[0]], 0) == (q, [p.free[0]]);
  }

  lemma FreshIs()
    ensures FreshPool(Small()) == Pool([Unused(), Unused(), Unused()], [0, 1, 2], {}, map[])
  {
  }

  lemma PlaceFirst()
    ensures Small().Valid()
    ensures Place(Small(), FreshPool(Small()), NewRow(0, LONG, 3, true), 7) ==
      Placed(AfterFirst(), First(0, 4, LONG, true, [0]).(status := Waiting), 4)
  {
    SizesOk();
    FreshIs();
    var p := FreshPool(Small());
    NoHits(p, LONG, 0);
    assert [0, 1, 2][1..] == [1, 2];
    Takes(p, AfterFirst());
    hide CeilDiv, Grow, Hits;
  }

  lemma PlaceSecond()
    ensures Small().Valid()
    ensures Place(Small(), AfterFirst(), NewRow(1, WIDE, 1, true), 3) == Placed(AfterSecond(), Second(0, 3), 5)
  {
    SizesOk();
    var p := AfterFirst();
    NoHits(p, WIDE, 1);
    NoHits(p, WIDE, 0);
    assert [1, 2][1..] == [2];
    Takes(p, AfterSecond());
    hide CeilDiv, Grow, Hits;
  }

  lemma FillSecond(y: Sys)
    requires y == Sys(AfterFirst(), [NewRow(1, WIDE, 1, true), Third()], [First(0, 4, LONG, true, [0])], None)
    ensures Small().Valid() && FillPhase(Small(), y, [0], 4) == Ok(Filled(Prefilling(), [0, 1]))
  {
    PlaceSecond();
    hide Place;
    assert y.waiting[1..] == [Third()] && [Second(0, 3)] + [Third()] == [Second(0, 3), Third()];
    assert Placing(y, AfterSecond(), Second(0, 3), 5) == Prefilling().(mid := None);
    assert [0] + [1] == [0, 1];
  }

  lemma FirstSchedule()
    ensures Small().Valid() && Schedule(Small(), Queued()) == Ok(Scheduled(Prefilling(), [0, 1], true))
  {
    PlaceFirst();
    PlaceSecond();
    hide Place;
    var c, y := Small(), Queued();
    var y1 := Sys(AfterFirst(), [NewRow(1, WIDE, 1, true), Third()], [First(0, 4, LONG, true, [0])], None);
    assert y.waiting[1..] == y1.waiting;
    FillSecond(y1);
    assert Placing(y, AfterFirst(), First(0, 4, LONG, true, [0]).(status := Waiting), 4) == y1 by {
      assert [] + [First(0, 4, LONG, true, [0])] == [First(0, 4, LONG, true, [0])];
    }
    assert y.(running := [] + y.running) == y;
    assert [] + [0] == [0];
  }

  /** What the first pass leaves in the target cache. */
  function Computed(): Cache {
    map[(0, 0) := [5], (0, 1) := [5, 5], (0, 2) := [5, 5, 5], (0, 3) := LONG,
        (1, 0) := [7], (1, 1) := [7, 7], (1, 2) := [7, 7, 7]]
  }

  lemma FirstPass()
    ensures Scribble(4, map[], Computed(), Rows(Prefilling()))
    ensures Ran(Small(), Computed(), Prefilling().running + ChunkRows(Prefilling()))
  {
    var q := Rows(Prefilling());
    assert q == [Second(0, 3), Third(), First(0, 4, LONG, true, [0])];
    assert First(0, 4, LONG, true, [0]) in q && Second(0, 3) in q;
    forall b: nat, j: nat ensures At(Computed(), b, j) == [] || (j < 4 && Writable(4, q, b, j)) {
      if b == 0 && j < 4 { assert q[2].table[0] == b && Pos(4, 0, j) >= q[2].cached; }
      if b == 1 && j < 4 { assert q[0].table[0] == b && Pos(4, 0, j) >= q[0].cached; }
    }
    FirstTrue();
    hide TrueTo;
    assert Prefilling().running + ChunkRows(Prefilling()) == [First(0, 4, LONG, true, [0]), Second(0, 3)];
  }

  lemma FirstTrue()
    ensures TrueTo(4, Computed(), [0], LONG, 4) && TrueTo(4, Computed(), [1], WIDE, 3)
  {
    forall i: nat, j: nat | i < 1 && j < 4 && Pos(4, i, j) < 4 ensures At(Computed(), [0][i], j) == Prefix(LONG, Pos(4, i, j) + 1) {
      assert i == 0 && (j == 0 || j == 1 || j == 2 || j == 3);
    }
    forall i: nat, j: nat | i < 1 && j < 4 && Pos(4, i, j) < 3 ensures At(Computed(), [1][i], j) == Prefix(WIDE, Pos(4, i, j) + 1) {
      assert i == 0 && (j == 0 || j == 1 || j == 2);
    }
  }

  lemma PublishFirst()
    ensures Small().Valid()
    ensures HashBlocks(Small(), AfterSecond(), First(0, 4, LONG, true, [0])) == Between().pool
  {
    var s := First(0, 4, LONG, true, [0]);
    assert BlockTokens(LONG, 0, 4) == LONG;
    var q := Publish(AfterSecond(), 0, 0, LONG);
    assert q == Between().pool;
    assert HashFrom(Small(), q, s, 1, 1, 0) == q;
  }

  lemma FirstPost()
    ensures Small().Valid()
    ensures PostRow(Small(), AfterSecond(), First(0, 4, LONG, true, [0]), 6) ==
      Posted(Between().pool, First(4, 0, Grown(), true, [0]), [Event(0, 6, false)])
    ensures PostRow(Small(), Between().pool, Second(0, 3), 6) == Posted(Between().pool, Second(3, 0), [])
  {
    PublishFirst();
    hide HashFrom, Release;
    assert HashBlocks(Small(), Between().pool, Second(0, 3)) == Between().pool;
    hide HashBlocks;
  }

  lemma TwoPosts(c: Config, p: Pool, q: Pool, a: Row, b: Row, a': Row, b': Row, e: Event)
    requires c.Valid() && PostRow(c, p, a, 6) == Posted(q, a', [e]) && PostRow(c, q, b, 6) == Posted(q, b', [])
    ensures PostRows(c, p, [a, b], [6, 6]) == PostedAll(q, [a', b'], [e])
  {
    hide PostRow;
    assert [a, b][1..] == [b] && [b][1..] == [] && [6, 6][1..] == [6] && [6][1..] == [];
    assert PostRows(c, q, [b], [6]) == PostedAll(q, [b'], []) by { assert [b'] + [] == [b']; }
    assert [a'] + [b'] == [a', b'] && [e] + [] == [e];
  }

  lemma FirstCommit()
    ensures Small().Valid() && Postprocess(Small(), Prefilling(), [6, 6], map[]) == PostOk(Between(), [Event(0, 6, false)])
  {
    FirstPost();
    var c, y := Small(), Prefilling();
    var a, b := First(0, 4, LONG, true, [0]), Second(0, 3);
    var a', b' := First(4, 0, Grown(), true, [0]), Second(3, 0);
    hide PostRow, PostRows;
    TwoPosts(c, y.pool, Between().pool, a, b, a', b', Event(0, 6, false));
    assert y.running + ChunkRows(y) == [a, b];
    assert [a', b'][..1] == [a'] && [a', b'][1..] == [b'] && y.waiting[1..] == [Third()];
    assert Surviving([a']) == [a'] by { assert [a'][1..] == []; }
    assert Covered([a'], map[]) == [a'];
  }

  // ----- the second schedule -----

  function Exhausted(): Pool { Pool([Published(), FRESH, FRESH], [], {0, 1, 2}, map[0 := 0]) }

  lemma TakesLast()
    ensures Grow(Between().pool, [0], 1) == (Exhausted(), [0, 2])
  {
    var p := Between().pool;
    assert Take(p) == Exhausted();
    assert [0] + [2] == [0, 2];
    assert Grow(Exhausted(), [0, 2], 0) == (Exhausted(), [0, 2]);
  }

  lemma DecodeFirst()
    ensures Small().Valid()
    ensures DecodePhase(Small(), Between(), []) ==
      Ok(Decoded(Sys(Exhausted(), Between().waiting, [], Some(1)), [First(4, 1, Grown(), false, [0, 2])]))
  {
    TakesLast();
    var c, y := Small(), Between();
    var s := First(4, 0, Grown(), true, [0]);
    assert |Grown()| == 5;
    assert MayAppend(c, y.pool, s.(sched := 1, prefill := false)) == (Exhausted(), First(4, 1, Grown(), false, [0, 2]));
    assert CanAppend(c, y.pool, s);
    hide MayAppend, CanAppend;
    DecodeTakes(c, y, [], Exhausted(), First(4, 1, Grown(), false, [0, 2]));
    assert y.running[1..] == [] && [] + [First(4, 1, Grown(), false, [0, 2])] == [First(4, 1, Grown(), false, [0, 2])];
  }

  lemma CannotGrow()
    ensures Small().Valid() && Place(Small(), Exhausted(), Second(3, 0), 6) == NoBlocks
  {
    SizesOk();
    hide CeilDiv, Grow;
  }

  lemma GivesBack()
    ensures Release(Exhausted(), [1]) == Reclaimed().pool
  {
    assert [1][..0] == [];
    assert Unref(Exhausted(), 1) == Reclaimed().pool by { assert [] + [1] == [1]; }
  }

  lemma FillReclaimsSecond()
    ensures Small().Valid()
    ensures FillPhase(Small(), Sys(Exhausted(), Between().waiting, Reclaimed().running, Some(1)), [0], 1) == Ok(Filled(Reclaimed(), [0]))
  {
    CannotGrow();
    GivesBack();
    hide Place, Release;
    var y := Sys(Exhausted(), Between().waiting, Reclaimed().running, Some(1));
    var s := Second(3, 0);
    assert y.waiting[0] == s && y.waiting[1..] == [Third()] && s.(sched := 0) == s;
    assert Scheduling.Preempt(y.(waiting := [Third()]), s) == Ok(Reclaimed()) by {
      assert [Third()] + [Preempted(s)] == [Third(), Preempted(s)];
    }
  }

  lemma SecondSchedule()
    ensures Small().Valid() && Schedule(Small(), Between()) == Ok(Scheduled(Reclaimed(), [0], false))
  {
    DecodeFirst();
    FillReclaimsSecond();
    hide DecodePhase, FillPhase;
    var d := [First(4, 1, Grown(), false, [0, 2])];
    assert d + [] == d && Ids(d) == [0];
  }

  // ----- the cycle -----

  lemma OneProposal()
    ensures Small().Valid() && EffectiveK(Small(), Reclaimed().running, 1) == 1
    ensures TotalNeeded(Small(), Reclaimed().running, HighPositions(Reclaimed().running, 1)) == 0
  {
    var q := Reclaimed().running;
    assert |Grown()| == 5 && q[1..] == [] && CatchUp(q) == 4;
    var highs := HighPositions(q, 1);
    assert highs == [5] && highs[1..] == [];
  }

  lemma Speculates()
    requires Small().Valid() && PureDecode(Small(), Reclaimed())
    ensures PlanSpeculative(Small(), Reclaimed(), 1, true).Speculate?
  {
    var c := Small();
    PureReady(c, Reclaimed());
    hide PureDecode, Ready, AllPlanned, EffectiveK, TotalNeeded;
    PlanKeeps(c, Reclaimed(), 1, true);
    OneProposal();
  }

  lemma AdmitsThird(p: Pool)
    requires |p.free| == 1
    ensures Small().Valid() && CanAllocate(Small(), p, Third()) == Some(0)
  {
    SizesOk();
    assert Hits(Small(), p, [9], 0, 0, NO_HASH) == [];
    hide CeilDiv;
  }

  // ----- the run -----

  function Opening(): seq<Action> {
    [AddRequest(0, LONG, 3, true), AddRequest(1, WIDE, 1, true), AddRequest(2, [9], 1, true),
     ScheduleBatch, Forward(Computed()), CommitBatch([6, 6])]
  }

  function OpeningRun(): seq<World> {
    var h1 := History([NewRow(0, LONG, 3, true)], {}, []);
    var h2 := History([NewRow(0, LONG, 3, true), NewRow(1, WIDE, 1, true)], {}, []);
    var h3 := History(Queued().waiting, {}, []);
    [World(Start(), map[], map[], Free, History([], {}, [])),
     World(Start().(waiting := h1.admitted), map[], map[], Free, h1),
     World(Start().(waiting := h2.admitted), map[], map[], Free, h2),
     World(Queued(), map[], map[], Free, h3),
     World(Prefilling(), map[], map[], Batch([0, 1], false, false), h3),
     World(Prefilling(), Computed(), map[], Batch([0, 1], false, true), h3),
     World(Between(), Computed(), map[], Free, h3.(log := [Event(0, 6, false)]))]
  }

  lemma OpeningSchedules()
    ensures Small().Valid() && Step(Small(), OpeningRun()[3], Opening()[3], OpeningRun()[4])
  {
    FirstSchedule();
    hide Schedule;
  }

  lemma OpeningRuns()
    ensures Small().Valid() && Step(Small(), OpeningRun()[4], Opening()[4], OpeningRun()[5])
  {
    SizesOk();
    FirstPass();
    hide Scribble, Ran;
  }

  lemma OpeningCommits()
    ensures Small().Valid() && Step(Small(), OpeningRun()[5], Opening()[5], OpeningRun()[6])
  {
    FirstCommit();
    hide Postprocess;
    assert [] + [Event(0, 6, false)] == [Event(0, 6, false)];
  }

  lemma OpeningAdmits(i: nat)
    requires i < 3
    ensures Small().Valid() && Step(Small(), OpeningRun()[i], Opening()[i], OpeningRun()[i + 1])
  {
    hide CeilDiv, Cancels, Schedules, Forwards, Verifies, Commits, Plans, Drafts, Prepares, Bursts, HandsOff, Aborts;
    SizesOk();
    assert [] + [NewRow(0, LONG, 3, true)] == [NewRow(0, LONG, 3, true)];
  }

  lemma OpeningIsRun()
    ensures Small().Valid() && Run(Small(), OpeningRun(), Opening()) && Idle(Small(), Between())
  {
    hide Step, Shape, OpeningRun, Opening, Idle;
    assert Small().Valid() by { SizesOk(); }
    OpeningShape();
    forall i | 0 <= i < 6 ensures Step(Small(), OpeningRun()[i], Opening()[i], OpeningRun()[i + 1]) {
      if i < 3 { OpeningAdmits(i); } else if i == 3 { OpeningSchedules(); } else if i == 4 { OpeningRuns(); } else { OpeningCommits(); }
    }
    RunShape(Small(), OpeningRun(), Opening(), 6);
    EndsIdle(OpeningRun()[6]);
  }

  lemma OpeningShape()
    ensures |OpeningRun()| == 7 && |Opening()| == 6 && Small().Valid() && Init(Small(), OpeningRun()[0])
    ensures OpeningRun()[6].phase == Free && OpeningRun()[6].sys == Between()
  {
  }

  lemma EndsIdle(w: World)
    requires Small().Valid() && Shape(Small(), w) && w.phase == Free
    ensures Idle(Small(), w.sys)
  {
    hide Idle;
  }

  // ----- the cycle and its retry -----

  function Cycle(): seq<Action> {
    [ScheduleBatch, PlanCycle(1, true), PrepareWrites, AbortCycle, ScheduleBatch]
  }

  /** The worlds of the cycle. */
  function CycleRun(w: World, plan: PlanOutcome, z: Sys, r: Scheduled): seq<World>
    requires plan.Speculate?
  {
    var leased := Reclaimed().(pool := plan.pool, running := plan.rows);
    [w.(sys := Reclaimed(), phase := Batch([0], true, false)),
     w.(sys := leased, phase := Leasing(Reclaimed(), plan.lease, plan.k, false, None, false)),
     w.(sys := leased, phase := Leasing(Reclaimed(), Prepare(plan.lease), plan.k, true, None, false)),
     w.(sys := z, phase := Free),
     w.(sys := r.sys, phase := Batch(r.ids, !r.prefill, false))]
  }

  lemma CycleSteps(w: World, plan: PlanOutcome, z: Sys, r: Scheduled, i: nat)
    requires Small().Valid() && w.sys == Between() && w.phase == Free && i < 5
    requires Schedule(Small(), Between()) == Ok(Scheduled(Reclaimed(), [0], false))
    requires plan == PlanSpeculative(Small(), Reclaimed(), 1, true) && plan.Speculate?
    requires AbortSpeculative(Small(), Reclaimed().(pool := plan.pool, running := plan.rows), Prepare(plan.lease)) == Undone(z)
    requires Schedule(Small(), z) == Ok(r)
    ensures Step(Small(), ([w] + CycleRun(w, plan, z, r))[i], Cycle()[i], ([w] + CycleRun(w, plan, z, r))[i + 1])
  {
    hide Small, Schedule, PlanSpeculative, AbortSpeculative, Prepare, Between, Reclaimed, Cancels, Admits, Forwards, Verifies,
         Commits, Drafts, Bursts, HandsOff;
  }

  /** After the abort the retry schedules the decoder and the request behind it. */
  lemma CycleRetries()
    requires Small().Valid() && Idle(Small(), Between())
    ensures Schedule(Small(), Between()) == Ok(Scheduled(Reclaimed(), [0], false))
    ensures var plan := PlanSpeculative(Small(), Reclaimed(), 1, true);
      && plan.Speculate?
      && var z := AbortSpeculative(Small(), Reclaimed().(pool := plan.pool, running := plan.rows), Prepare(plan.lease));
         z.Undone? && Schedule(Small(), z.sys).Ok? && Schedule(Small(), z.sys).value.prefill
  {
    hide Idle, PureDecode, Schedule, PlanSpeculative, AbortSpeculative, Prepare, FillKept, CanAllocate, Small;
    SecondSchedule();
    ScheduledPure(Small(), Between());
    Speculates();
    RetryInvisible(Small(), Between(), 1, true, true);
    var plan := PlanSpeculative(Small(), Reclaimed(), 1, true);
    AdmitsThird(LeaseBase(Reclaimed(), plan.lease, true).pool);
    RoomLeft();
  }

  lemma RoomLeft()
    ensures Small().maxSeqs == 3 && Small().budget == 7
  {
  }

  /** The retry after an aborted cycle can start a prefill: from a fresh engine, three
      admissions, one step, then a schedule that decodes only, its cycle, planned, prepared
      and aborted, and a second schedule that does prefill. */
  lemma RetryCanPrefill()
    ensures Small().Valid()
    ensures exists run: seq<World> ::
      && Run(Small(), run, Opening() + Cycle()) && |run| == 12
      && run[7].phase == Batch([0], true, false)
      && run[11].phase.Batch? && !run[11].phase.decode
  {
    hide Step, Init, Idle, Schedule, PlanSpeculative, AbortSpeculative, Small, Opening, OpeningRun, Cycle, CycleRun, Prepare;
    OpeningIsRun();
    OpeningShape();
    CycleRetries();
    var plan := PlanSpeculative(Small(), Reclaimed(), 1, true);
    var z := AbortSpeculative(Small(), Reclaimed().(pool := plan.pool, running := plan.rows), Prepare(plan.lease)).sys;
    var r := Schedule(Small(), z).value;
    var w := OpeningRun()[6];
    CycleShape(w, plan, z, r);
    var run := OpeningRun() + CycleRun(w, plan, z, r);
    forall i | 0 <= i < 11 ensures Step(Small(), run[i], (Opening() + Cycle())[i], run[i + 1]) {
      if i >= 6 {
        CycleSteps(w, plan, z, r, i - 6);
        assert run[i] == ([w] + CycleRun(w, plan, z, r))[i - 6];
        assert run[i + 1] == ([w] + CycleRun(w, plan, z, r))[i - 5];
      }
    }
    assert run[7] == CycleRun(w, plan, z, r)[0] && run[11] == CycleRun(w, plan, z, r)[4];
  }

  lemma CycleShape(w: World, plan: PlanOutcome, z: Sys, r: Scheduled)
    requires plan.Speculate?
    ensures |CycleRun(w, plan, z, r)| == 5 && |Cycle()| == 5
    ensures CycleRun(w, plan, z, r)[0].phase == Batch([0], true, false)
    ensures CycleRun(w, plan, z, r)[4].phase == Batch(r.ids, !r.prefill, false)
  {
  }
}
