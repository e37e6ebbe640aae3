/** Safety of every run for any hash whatsoever: conservation of blocks, agreement of
    the prefix index, queue and budget bounds, and that no internal guard of the
    scheduler or allocator can fire. */
module Safety {
  import opened Arith
  import opened Types
  import opened Pools
  import opened Allocator
  import opened Queues
  import opened Evolution
  import opened Scheduling
  import opened States
  import opened Progress
  import opened Commit
  import opened Leases
  import opened Speculation
  import opened Transactions
  import opened Undo
  import opened Truth
  import opened TruthSteps
  import opened TruthBurst
  import opened Requests
  import opened Protocol

  lemma InitShape(c: Config, w: World)
    requires c.Valid() && Init(c, w)
    ensures Shape(c, w)
  {
    InitInv(c, w);
  }

  lemma FreeStep(c: Config, w: World, a: Action, w': World)
    requires c.Valid() && Shape(c, w) && Step(c, w, a, w') && w.phase.Free? && !a.CancelRequests?
    ensures Shape(c, w')
  {
    hide Idle, Schedule, Cancels, Admit, Ready, Held, AllPlanned, AllComplete, Evolves, PureDecode;
    match a
    case AddRequest(id, prompt, maxTokens, ignoreEos) =>
      AdmitKeeps(c, w.sys, id, prompt, maxTokens, ignoreEos);
    case ScheduleBatch =>
      NothingToSchedule(c, w.sys);
      if w.sys.waiting != [] || w.sys.running != [] {
        ScheduleProgress(c, w.sys);
        var s := Schedule(c, w.sys).value;
        if !s.prefill { DecodeIsPure(c, s.sys, s.ids); }
      }
    case _ =>
  }

  /** An accepted commit of a scheduled batch leaves the engine between steps. */
  lemma AcceptedShape(c: Config, y: Sys, ids: seq<nat>, tokens: seq<Token>, staged: Coverage)
    requires c.Valid() && Ready(c, y, ids) && Postprocess(c, y, tokens, staged).PostOk? && StagedFits(y.running, staged)
    ensures Idle(c, Postprocess(c, y, tokens, staged).sys)
  {
    hide Ready, Idle, Postprocess, StagedFits;
    AcceptedCommit(c, y, ids, tokens, staged);
    PostprocessKeeps(c, y, ids, tokens, staged);
  }

  lemma BatchStep(c: Config, w: World, a: Action, w': World)
    requires c.Valid() && Shape(c, w) && Step(c, w, a, w') && (w.phase.Batch? || w.phase.Shadow?) && !a.CancelRequests?
    ensures Shape(c, w')
  {
    hide Cancels, Ready, PureDecode, Idle, Postprocess, StagedFits, StagedFor, Distinct, Held, UndoSchedule, PlanSpeculative,
         Leased, Scribble, Ran, Rows, AllPlanned;
    match a
    case CommitBatch(tokens) =>
      if w' != w {
        assert StagedFits(w.sys.running, map[]) by { NothingStaged(c, w.dkv, w.sys.running); }
        AcceptedShape(c, w.sys, w.phase.ids, tokens, map[]);
      }
    case CommitShadow(tokens) =>
      if w' != w {
        PureReady(c, w.sys);
        PureDistinct(c, w.sys);
        StagedForFits(w.sys.running);
        AcceptedShape(c, w.sys, Ids(w.sys.running), tokens, StagedFor(w.sys.running));
      }
    case PlanCycle(routeCap, certified) => PlanKeeps(c, w.sys, routeCap, certified);
    case AbortCycle => UndoKeeps(c, w.sys);
    case _ =>
  }

  lemma PassShape(c: Config, w: World, w': World, kv: Cache)
    requires c.Valid() && Shape(c, w) && w.phase.Leasing?
    requires Forwards(c, w, kv, false, w') || Verifies(c, w, kv, true, w') || Verifies(c, w, kv, false, w')
    ensures Shape(c, w')
  {
    hide Leased, Scribble, Verified, Ran, Rows;
  }

  lemma DraftShape(c: Config, w: World, dkv: Cache, props: Option<seq<seq<Token>>>, w': World)
    requires c.Valid() && Shape(c, w) && Drafts(c, w, dkv, props, w')
    ensures Shape(c, w')
  {
    hide Leased, DraftPass, Proposed;
  }

  lemma PrepareShape(c: Config, w: World, w': World)
    requires c.Valid() && Shape(c, w) && Prepares(w, w')
    ensures Shape(c, w')
  {
    hide Leased, Prepare;
    PrepareKeeps(c, w.phase.base, w.sys, w.phase.lease, w.phase.k);
  }

  lemma BurstShape(c: Config, w: World, results: seq<SpecRow>, w': World)
    requires c.Valid() && Shape(c, w) && Bursts(c, w, results, w')
    ensures Shape(c, w')
  {
    hide Leased, CommitSpeculative, Idle, CommitsAs, ResultsValid;
    if w' != w {
      var ph := w.phase;
      AcceptedBurst(c, ph.base, w.sys, ph.lease, ph.k, ph.prepared, results);
      CommitKeeps(c, ph.base, w.sys, ph.lease, ph.k, ph.prepared, results);
    }
  }

  lemma HandoffShape(c: Config, w: World, w': World)
    requires c.Valid() && Shape(c, w) && HandsOff(w, w')
    ensures Shape(c, w')
  {
    hide Leased, LeaseOf, LeaseBase, Rollback, PureDecode;
    var ph := w.phase;
    LeasedParts(c, ph.base, w.sys, ph.lease, ph.k, false);
    NotPrepared(ph.base, ph.lease);
    RollbackExact(ph.base.pool, ph.base.running, w.sys.pool, w.sys.running, ph.lease);
    assert w'.sys == ph.base;
  }

  lemma AbortShape(c: Config, w: World, w': World)
    requires c.Valid() && Shape(c, w) && w.phase.Leasing? && Aborts(c, w, w')
    ensures Shape(c, w')
  {
    hide Leased, AbortSpeculative, UndoSchedule, Idle, LeaseBase;
    AbortKeeps(c, w.phase.base, w.sys, w.phase.lease, w.phase.k, w.phase.prepared);
  }

  /** The other steps do not apply to a leased batch. */
  lemma NotLeasing(c: Config, w: World, a: Action, w': World)
    requires c.Valid() && w.phase.Leasing? && Step(c, w, a, w')
    ensures a.CancelRequests? || a.Garble? || a.Verify? || a.DraftPart? || a.Propose? || a.PrepareWrites? || a.CommitBurst? || a.Handoff?
      || a.AbortCycle?
  {
    hide Cancels, Commits, Verifies, Drafts, Prepares, Bursts, HandsOff, Aborts, Scribble, Ran, Schedule, PlanSpeculative;
  }

  lemma LeasingStep(c: Config, w: World, a: Action, w': World)
    requires c.Valid() && Shape(c, w) && Step(c, w, a, w') && w.phase.Leasing? && !a.CancelRequests?
    ensures Shape(c, w')
  {
    hide Shape, Cancels, Admits, Schedules, Commits, Plans, Forwards, Verifies, Drafts, Prepares, Bursts, HandsOff, Aborts;
    match a
    case Garble(kv) => PassShape(c, w, w', kv);
    case Verify(kv) => PassShape(c, w, w', kv);
    case DraftPart(dkv) => DraftShape(c, w, dkv, None, w');
    case Propose(props, dkv) => DraftShape(c, w, dkv, Some(props), w');
    case PrepareWrites => PrepareShape(c, w, w');
    case CommitBurst(results) => BurstShape(c, w, results, w');
    case Handoff => HandoffShape(c, w, w');
    case AbortCycle => AbortShape(c, w, w');
    case _ => NotLeasing(c, w, a, w');
  }

  lemma CancellationShape(c: Config, w: World, targets: set<nat>, w': World)
    requires c.Valid() && Shape(c, w) && Cancels(c, w, targets, w')
    ensures Shape(c, w')
  {
    hide Shape, Removes, AbortSpeculative, NamesQueued;
    if NamesQueued(w.sys, targets) {
      if w.phase.Leasing? {
        var r := AbortSpeculative(c, w.sys, w.phase.lease);
        if r.Undone? {
          var v := w.(sys := r.sys, phase := Free);
          AbortShape(c, w, v);
          RemoveShape(c, v, targets, w');
        }
      } else {
        RemoveShape(c, w, targets, w');
      }
    }
  }

  /** Every step keeps the structural invariant, for any hash. */
  lemma StepKeepsShape(c: Config, w: World, a: Action, w': World)
    requires c.Valid() && Shape(c, w) && Step(c, w, a, w')
    ensures Shape(c, w')
  {
    if a.CancelRequests? {
      hide Shape, Cancels;
      CancellationShape(c, w, a.targets, w');
    } else {
      PhaseStep(c, w, a, w');
    }
  }

  lemma PhaseStep(c: Config, w: World, a: Action, w': World)
    requires c.Valid() && Shape(c, w) && Step(c, w, a, w') && !a.CancelRequests?
    ensures Shape(c, w')
  {
    if w.phase.Stalled? {
      hide Shape, Cancels;
    } else {
      hide Shape, Step;
      match w.phase
      case Free => FreeStep(c, w, a, w');
      case Batch(_, _, _) => BatchStep(c, w, a, w');
      case Shadow(_) => BatchStep(c, w, a, w');
      case Leasing(_, _, _, _, _, _) => LeasingStep(c, w, a, w');
    }
  }

  lemma {:induction false} RunShape(c: Config, run: seq<World>, acts: seq<Action>, n: nat)
    requires c.Valid() && Run(c, run, acts) && n < |run|
    ensures Shape(c, run[n])
  {
    hide Shape, Step, Init;
    if n == 0 {
      InitShape(c, run[0]);
    } else {
      RunShape(c, run, acts, n - 1);
      StepKeepsShape(c, run[n - 1], acts[n - 1], run[n]);
    }
  }

  // ----- what the invariant means for the pool -----

  lemma ShapeIsolated(c: Config, w: World)
    requires c.Valid() && Shape(c, w)
    ensures Isolated(c, w.sys.pool, w.sys.running + w.sys.waiting)
  {
    hide Idle, Ready, Leased, PureDecode, Isolated, Held;
    var q := w.sys.running + w.sys.waiting;
    match w.phase
    case Free => IdleHeld(c, w.sys); HeldPerm(c, w.sys.pool, Rows(w.sys), q); HeldIsolated(c, w.sys.pool, q);
    case Batch(ids, _, _) => ReadyHeld(c, w.sys, ids); HeldPerm(c, w.sys.pool, Rows(w.sys), q); HeldIsolated(c, w.sys.pool, q);
    case Shadow(_) => PureHeld(c, w.sys); HeldIsolated(c, w.sys.pool, q);
    case Stalled => RowsPlain(w.sys); HeldPerm(c, w.sys.pool, Rows(w.sys), q); HeldIsolated(c, w.sys.pool, q);
    case Leasing(base, lease, k, prepared, _, _) => LeasedIsolated(c, base, w.sys, lease, k, prepared);
  }

  /** Conservation over every run: the free list and the used set partition the pool,
      and every reference count is the number of occurrences in live tables, zero
      exactly on the free list. */
  lemma BlocksConserved(c: Config, run: seq<World>, acts: seq<Action>, n: nat)
    requires c.Valid() && Run(c, run, acts) && n < |run|
    ensures var y := run[n].sys;
      && NoDup(y.pool.free) && |y.pool.free| + |y.pool.used| == |y.pool.blocks|
      && forall b: nat :: b < |y.pool.blocks| ==>
          && y.pool.blocks[b].refs == Owners(y.running + y.waiting)[b]
          && (b in y.pool.free <==> y.pool.blocks[b].refs == 0)
          && (b in y.pool.used <==> y.pool.blocks[b].refs > 0)
  {
    RunShape(c, run, acts, n);
    ShapeIsolated(c, run[n]);
    Conservation(run[n].sys.pool);
  }

  /** Content agreement over every run: each index entry names a block carrying that
      digest; below a row's coverage its blocks carry the chained digests and tokens of
      its own prefix; from there on they are unpublished and referenced once. */
  lemma IndexAndTablesAgree(c: Config, run: seq<World>, acts: seq<Action>, n: nat, s: Row, i: nat)
    requires c.Valid() && Run(c, run, acts) && n < |run|
    requires s in run[n].sys.running + run[n].sys.waiting && i < |s.table|
    ensures var p := run[n].sys.pool;
      && IndexAgrees(p) && s.table[i] < |p.blocks|
      && (i < s.cached / c.blockSize ==>
            && p.blocks[s.table[i]].hash == Chain(c, s.toks, i + 1)
            && p.blocks[s.table[i]].toks == BlockTokens(s.toks, i, c.blockSize))
      && (i >= s.cached / c.blockSize ==> p.blocks[s.table[i]].hash == NO_HASH && p.blocks[s.table[i]].refs == 1)
  {
    RunShape(c, run, acts, n);
    ShapeIsolated(c, run[n]);
  }

  lemma WorldQueues(c: Config, w: World)
    requires c.Valid() && Shape(c, w)
    ensures QueuesOk(c, w.sys)
    ensures w.phase.Batch? ==>
      && NoDup(w.phase.ids) && |w.phase.ids| <= c.maxSeqs && SchedTokens(w.sys.running) + ChunkTokens(w.sys) <= c.budget
  {
    hide Idle, Ready, PureDecode, Common, Leased, QueuesOk, SchedTokens;
    var y := w.sys;
    match w.phase
    case Free => IdleQueues(c, y);
    case Batch(ids, _, _) => ReadyQueues(c, y, ids);
    case Shadow(_) => PureReady(c, y); ReadyQueues(c, y, Ids(y.running));
    case Stalled => CommonQueues(c, y);
    case Leasing(base, lease, k, prepared, _, _) => LeasedQueues(c, base, y, lease, k, prepared);
  }

  /** Queue and budget safety over every run. */
  lemma QueuesSafe(c: Config, run: seq<World>, acts: seq<Action>, n: nat)
    requires c.Valid() && Run(c, run, acts) && n < |run|
    ensures var y := run[n].sys;
      && Distinct(y.running + y.waiting)
      && |y.running| + |y.waiting| <= c.maxSeqs
      && (forall i :: 0 <= i < |y.waiting| && y.waiting[i].table != [] ==> i == 0 && y.mid == Some(y.waiting[0].id))
      && (y.mid.Some? ==> y.waiting != [] && y.mid.value == y.waiting[0].id)
      && (run[n].phase.Batch? ==>
            && NoDup(run[n].phase.ids) && |run[n].phase.ids| <= c.maxSeqs
            && SchedTokens(y.running) + ChunkTokens(y) <= c.budget)
  {
    hide Shape, Step, Init;
    RunShape(c, run, acts, n);
    WorldQueues(c, run[n]);
  }

  ghost predicate QueuesOk(c: Config, y: Sys)
  {
    && Distinct(y.running + y.waiting)
    && |y.running| + |y.waiting| <= c.maxSeqs
    && (forall i :: 0 <= i < |y.waiting| && y.waiting[i].table != [] ==> i == 0 && y.mid == Some(y.waiting[0].id))
    && (y.mid.Some? ==> y.waiting != [] && y.mid.value == y.waiting[0].id)
  }

  lemma ShapeQueues(y: Sys)
    requires WaitShape(y)
    ensures forall i :: 0 <= i < |y.waiting| && y.waiting[i].table != [] ==> i == 0 && y.mid == Some(y.waiting[0].id)
  {
    if y.mid.Some? {
      forall i | 1 <= i < |y.waiting| ensures y.waiting[i].table == [] { assert Quiet(y.waiting[1..][i - 1]); }
    }
  }

  lemma CommonQueues(c: Config, y: Sys)
    requires c.Valid() && Common(c, y, [])
    ensures QueuesOk(c, y)
  {
    ShapeQueues(y);
    assert y.waiting + y.running + [] == Rows(y);
    HeldPerm(c, y.pool, Rows(y), y.running + y.waiting);
  }

  lemma IdleQueues(c: Config, y: Sys)
    requires c.Valid() && Idle(c, y)
    ensures QueuesOk(c, y)
  {
    hide Common, QueuesOk;
    CommonQueues(c, y);
  }

  lemma ReadyQueues(c: Config, y: Sys, ids: seq<nat>)
    requires c.Valid() && Ready(c, y, ids)
    ensures QueuesOk(c, y) && NoDup(ids) && |ids| <= c.maxSeqs
    ensures SchedTokens(y.running) + ChunkTokens(y) <= c.budget
  {
    CommonQueues(c, y);
    var q := y.running + y.waiting;
    forall i, j | 0 <= i < j < |ids| ensures ids[i] != ids[j] {
      assert ids[i] == q[i].id && ids[j] == q[j].id;
    }
  }

  lemma LeasedQueues(c: Config, base: Sys, y: Sys, lease: Lease, k: nat, prepared: bool)
    requires c.Valid() && Leased(c, base, y, lease, k, prepared)
    ensures QueuesOk(c, y)
  {
    LeasedParts(c, base, y, lease, k, prepared);
    PureReady(c, base);
    ReadyQueues(c, base, Ids(base.running));
    forall i, j | 0 <= i < j < |y.running + y.waiting|
      ensures (y.running + y.waiting)[i].id != (y.running + y.waiting)[j].id
    {
      LeasedIds(c, base, y, lease, k, prepared, i);
      LeasedIds(c, base, y, lease, k, prepared, j);
    }
  }

  lemma LeasedIds(c: Config, base: Sys, y: Sys, lease: Lease, k: nat, prepared: bool, i: nat)
    requires c.Valid() && Leased(c, base, y, lease, k, prepared) && i < |y.running + y.waiting|
    ensures |y.running| == |base.running| && y.waiting == base.waiting
    ensures (y.running + y.waiting)[i].id == (base.running + base.waiting)[i].id
  {
    LeasedNonEmpty(c, base, y, lease, k, prepared);
    RunningFields(c, base, y, lease, k, prepared, if i < |base.running| then i else 0);
    LeasedParts(c, base, y, lease, k, prepared);
  }

  /** Coverage over every run: whatever path led there, a running row between steps lacks
      exactly its last token in the target cache, owns exactly the blocks of the rest, and
      claims at most that much of the draft cache. */
  lemma CoverageBounded(c: Config, run: seq<World>, acts: seq<Action>, n: nat, s: Row)
    requires c.Valid() && Run(c, run, acts) && n < |run| && run[n].phase.Free? && s in run[n].sys.running
    ensures s.cached == |s.toks| - 1 && |s.table| == CeilDiv(s.cached, c.blockSize) && 0 <= s.draft <= |s.toks| - 1
  {
    hide Held;
    RunShape(c, run, acts, n);
    var y := run[n].sys;
    IdleHeld(c, y);
    assert Decoding(s) && s in Rows(y);
    HeldMember(c, y.pool, Rows(y), s);
  }

  // ----- no guard can fire -----

  /** In every reachable state the operation the engine performs next succeeds: a
      schedule with pending work, a commit of in-vocabulary tokens, planning, a burst
      commit of valid results, a handoff and an abort never raise. */
  ghost predicate NeverRaises(c: Config, w: World)
    requires c.Valid()
  {
    && (!w.phase.Leasing? ==> forall targets :: Cancel(w.sys, targets).CancelOk?)
    && match w.phase
    case Free => w.sys.waiting != [] || w.sys.running != [] ==> Schedule(c, w.sys).Ok?
    case Stalled => true
    case Batch(ids, decode, _) =>
      && (forall tokens: seq<Token> :: |tokens| == |ids| && AllInVocabulary(c, tokens) ==> Postprocess(c, w.sys, tokens, map[]).PostOk?)
      && (decode ==> UndoSchedule(c, w.sys).Undone?
                     && forall routeCap, certified :: !PlanSpeculative(c, w.sys, routeCap, certified).PlanFailed?)
    case Shadow(_) =>
      && UndoSchedule(c, w.sys).Undone?
      && (forall tokens: seq<Token> :: |tokens| == |w.sys.running| && AllInVocabulary(c, tokens) ==>
            Postprocess(c, w.sys, tokens, StagedFor(w.sys.running)).PostOk?)
    case Leasing(_, lease, k, _, _, _) =>
      && Live(w.sys.pool, w.sys.running, lease)
      && AbortSpeculative(c, w.sys, lease).Undone?
      && (forall results :: ResultsValid(c, k, results, |w.sys.running|) ==> CommitSpeculative(c, w.sys, lease, k, results).CommitOk?)
  }

  lemma NothingRaises(c: Config, run: seq<World>, acts: seq<Action>, n: nat)
    requires c.Valid() && Run(c, run, acts) && n < |run|
    ensures NeverRaises(c, run[n])
  {
    hide Shape, NeverRaises, Step, Init;
    RunShape(c, run, acts, n);
    var w := run[n];
    match w.phase
    case Free => FreeRaises(c, w);
    case Stalled => StalledRaises(c, w);
    case Batch(_, _, _) => BatchRaises(c, w);
    case Shadow(_) => ShadowRaises(c, w);
    case Leasing(_, _, _, _, _, _) => LeasingRaises(c, w);
  }

  lemma CancelRaises(c: Config, w: World)
    requires c.Valid() && Shape(c, w) && !w.phase.Leasing?
    ensures forall targets :: Cancel(w.sys, targets).CancelOk?
  {
    hide Shape, Common, Cancel;
    ShapeCommon(c, w);
    forall targets ensures Cancel(w.sys, targets).CancelOk? { CancelKeeps(c, w.sys, targets); }
  }

  lemma FreeRaises(c: Config, w: World)
    requires c.Valid() && Shape(c, w) && w.phase.Free?
    ensures NeverRaises(c, w)
  {
    hide Idle, Schedule, Cancel;
    CancelRaises(c, w);
    NothingToSchedule(c, w.sys);
  }

  lemma StalledRaises(c: Config, w: World)
    requires c.Valid() && Shape(c, w) && w.phase.Stalled?
    ensures NeverRaises(c, w)
  {
    hide Cancel;
    CancelRaises(c, w);
  }

  lemma BatchRaises(c: Config, w: World)
    requires c.Valid() && Shape(c, w) && w.phase.Batch?
    ensures NeverRaises(c, w)
  {
    hide Ready, PureDecode, Postprocess, UndoSchedule, PlanSpeculative, StagedFits, AllInVocabulary, Cancel;
    CancelRaises(c, w);
    var ids := w.phase.ids;
    assert StagedFits(w.sys.running, map[]) by { NothingStaged(c, w.dkv, w.sys.running); }
    forall tokens: seq<Token> | |tokens| == |ids| && AllInVocabulary(c, tokens)
      ensures Postprocess(c, w.sys, tokens, map[]).PostOk?
    {
      PostprocessKeeps(c, w.sys, ids, tokens, map[]);
    }
    if w.phase.decode {
      UndoKeeps(c, w.sys);
      forall routeCap, certified ensures !PlanSpeculative(c, w.sys, routeCap, certified).PlanFailed? {
        PlanKeeps(c, w.sys, routeCap, certified);
      }
    }
  }

  lemma ShadowRaises(c: Config, w: World)
    requires c.Valid() && Shape(c, w) && w.phase.Shadow?
    ensures NeverRaises(c, w)
  {
    hide Ready, PureDecode, Postprocess, UndoSchedule, StagedFits, StagedFor, AllInVocabulary, Distinct, Cancel;
    CancelRaises(c, w);
    PureReady(c, w.sys);
    PureDistinct(c, w.sys);
    StagedForFits(w.sys.running);
    UndoKeeps(c, w.sys);
    forall tokens: seq<Token> | |tokens| == |w.sys.running| && AllInVocabulary(c, tokens)
      ensures Postprocess(c, w.sys, tokens, StagedFor(w.sys.running)).PostOk?
    {
      PostprocessKeeps(c, w.sys, Ids(w.sys.running), tokens, StagedFor(w.sys.running));
    }
  }

  lemma LeasingRaises(c: Config, w: World)
    requires c.Valid() && Shape(c, w) && w.phase.Leasing?
    ensures NeverRaises(c, w)
  {
    var ph := w.phase;
    LeasedParts(c, ph.base, w.sys, ph.lease, ph.k, ph.prepared);
    LeasedNonEmpty(c, ph.base, w.sys, ph.lease, ph.k, ph.prepared);
    RunningFields(c, ph.base, w.sys, ph.lease, ph.k, ph.prepared, 0);
    hide Leased, PureDecode, Live, LeaseOf, AbortSpeculative, CommitSpeculative, ResultsValid, CommitsAs, LeaseBase;
    LeaseIsLive(LeaseBase(ph.base, ph.lease, ph.prepared).pool, ph.base.running, w.sys.pool, w.sys.running, ph.lease);
    AbortKeeps(c, ph.base, w.sys, ph.lease, ph.k, ph.prepared);
    forall results | ResultsValid(c, ph.k, results, |w.sys.running|)
      ensures CommitSpeculative(c, w.sys, ph.lease, ph.k, results).CommitOk?
    {
      CommitKeeps(c, ph.base, w.sys, ph.lease, ph.k, ph.prepared, results);
    }
  }
}
