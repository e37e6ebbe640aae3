/** The engine as a state machine over all its steps, with the contents of both
    physical caches, and the safety invariant of every run. */
module Protocol {
  import opened Types
  import opened Pools
  import opened Allocator
  import opened Queues
  import opened Evolution
  import opened Scheduling
  import opened States
  import opened Progress
  import opened Commit
  import opened Leases
  import opened Speculation
  import opened Transactions
  import opened Undo
  import opened Truth
  import opened TruthSteps
  import opened TruthBurst
  import opened Requests

  /** Where an engine step stands. `base` in Leasing remembers the state the lease was
      taken from; no operation reads it. */
  datatype Phase =
    | Free
    | Batch(ids: seq<nat>, decode: bool, ran: bool)
    | Leasing(base: Sys, lease: Lease, k: nat, prepared: bool, props: Option<seq<seq<Token>>>, verified: bool)
    | Shadow(ran: bool)
    | Stalled                                    // cancelled into a batch whose pass failed

  /** What happened so far: the requests as they were admitted, the ids that were
      cancelled, and every event reported. No operation reads it. */
  datatype History = History(admitted: seq<Row>, cancelled: set<nat>, log: seq<Event>)

  datatype World = World(sys: Sys, kv: Cache, dkv: Cache, phase: Phase, past: History)

  datatype Action =
    | AddRequest(id: nat, prompt: seq<Token>, maxTokens: nat, ignoreEos: bool)
    | CancelRequests(targets: set<nat>)
    | ScheduleBatch
    | Forward(kv: Cache)                          // target pass over the scheduled rows
    | Garble(kv: Cache)                           // a target pass that failed part-way
    | CommitBatch(tokens: seq<Token>)
    | PlanCycle(routeCap: nat, certified: bool)
    | DraftPart(dkv: Cache)                       // a draft pass that failed part-way
    | Propose(props: seq<seq<Token>>, dkv: Cache)
    | PrepareWrites
    | Verify(kv: Cache)
    | CommitBurst(results: seq<SpecRow>)
    | Handoff                                     // release the lease, keep the coverage
    | CommitShadow(tokens: seq<Token>)
    | AbortCycle

  /** Draft coverage a shadow cycle stages: every row's committed prefix. */
  function StagedFor(q: seq<Row>): Coverage {
    if q == [] then map[] else StagedFor(q[1..])[q[0].id := |q[0].toks|]
  }

  function Logged(h: History, ev: seq<Event>): History { h.(log := h.log + ev) }

  /** Request ids come from a counter, so an id is never used again. */
  ghost predicate UnusedId(w: World, id: nat) {
    NewId(w.sys, id) && forall s :: s in w.past.admitted ==> s.id != id
  }

  ghost predicate Admits(c: Config, w: World, s: Row, r: Admission, w': World) {
    match r
    case AdmitRefused(_) => w' == w
    case Admitted(y) => w' == w.(sys := y, past := w.past.(admitted := w.past.admitted + [s]))
  }

  predicate NamesQueued(y: Sys, targets: set<nat>) {
    exists i :: 0 <= i < |Rows(y)| && Rows(y)[i].id in targets
  }

  /** Cancellation in whatever phase the engine was left: a live transaction is aborted
      first, but only when some named request is queued. */
  ghost predicate Cancels(c: Config, w: World, targets: set<nat>, w': World)
    requires c.Valid()
  {
    if !NamesQueued(w.sys, targets) then w' == w
    else if w.phase.Leasing? then
      match AbortSpeculative(c, w.sys, w.phase.lease)
      case UndoRefused => w' == w
      case Undone(y) => Removes(w.(sys := y, phase := Free), targets, w')
    else Removes(w, targets, w')
  }

  ghost predicate Removes(w: World, targets: set<nat>, w': World) {
    match Cancel(w.sys, targets)
    case CancelBroken => w' == w
    case CancelOk(y, ids) =>
      w' == w.(sys := y, phase := if w.phase.Free? || Rows(y) == [] then Free else Stalled,
               past := w.past.(cancelled := w.past.cancelled + ToSet(ids)))
  }

  ghost predicate Schedules(c: Config, w: World, w': World)
    requires c.Valid()
  {
    w.phase == Free
    && (match Schedule(c, w.sys)
        case Err(_) => w' == w
        case Ok(s) => w' == w.(sys := s.sys, phase := Batch(s.ids, !s.prefill, false)))
  }

  /** A target pass over the scheduled rows; one that fails part-way leaves anything in the
      slots it may write. */
  ghost predicate Forwards(c: Config, w: World, kv: Cache, done: bool, w': World)
    requires c.Valid()
  {
    && (w.phase.Batch? || w.phase.Shadow?)
    && Scribble(c.blockSize, w.kv, kv, Rows(w.sys)) && (done ==> Ran(c, kv, w.sys.running + ChunkRows(w.sys)))
    && w' == w.(kv := kv, phase := w.phase.(ran := done))
  }

  /** A target pass over the verified positions of a leased batch. */
  ghost predicate Verifies(c: Config, w: World, kv: Cache, done: bool, w': World)
    requires c.Valid()
  {
    && w.phase.Leasing? && w.phase.prepared
    && Scribble(c.blockSize, w.kv, kv, w.sys.running + w.sys.waiting)
    && (done ==> w.phase.props.Some? && Verified(c, kv, w.sys.running, w.phase.props.value, w.phase.k))
    && w' == w.(kv := kv, phase := w.phase.(verified := done))
  }

  /** The ordinary commit of a batch whose pass ran. */
  ghost predicate Commits(c: Config, w: World, tokens: seq<Token>, staged: Coverage, w': World)
    requires c.Valid()
  {
    match Postprocess(c, w.sys, tokens, staged)
    case PostErr(_) => w' == w
    case PostOk(y, ev) => w' == w.(sys := y, phase := Free, past := Logged(w.past, ev))
  }

  ghost predicate Plans(c: Config, w: World, routeCap: nat, certified: bool, w': World)
    requires c.Valid()
  {
    w.phase.Batch? && w.phase.decode && !w.phase.ran
    && (match PlanSpeculative(c, w.sys, routeCap, certified)
        case Bypass => w' == w
        case PlanFailed(_) => w' == w
        case Speculate(k, pool, rows, lease) =>
          w' == w.(sys := w.sys.(pool := pool, running := rows), phase := Leasing(w.sys, lease, k, false, None, false)))
  }

  /** A draft pass; only a complete one yields proposals. */
  ghost predicate Drafts(c: Config, w: World, dkv: Cache, props: Option<seq<seq<Token>>>, w': World)
    requires c.Valid()
  {
    && w.phase.Leasing? && DraftPass(c.blockSize, w.dkv, dkv, w.sys.running + w.sys.waiting)
    && (props.Some? ==> Proposed(c, dkv, w.sys.running, props.value, w.phase.k))
    && w' == w.(dkv := dkv, phase := w.phase.(props := props, verified := false))
  }

  ghost predicate Prepares(w: World, w': World) {
    && w.phase.Leasing? && !w.phase.prepared
    && w' == w.(phase := w.phase.(lease := Prepare(w.phase.lease), prepared := true))
  }

  ghost predicate Bursts(c: Config, w: World, results: seq<SpecRow>, w': World)
    requires c.Valid()
  {
    w.phase.Leasing? && w.phase.verified && w.phase.props.Some?
    && |results| == |w.phase.props.value|
    && (forall i :: 0 <= i < |results| ==> results[i].proposed == w.phase.props.value[i])
    && (match CommitSpeculative(c, w.sys, w.phase.lease, w.phase.k, results)
        case CommitFailed(_) => w' == w
        case CommitOk(y, ev) => w' == w.(sys := y, phase := Free, past := Logged(w.past, ev)))
  }

  ghost predicate HandsOff(w: World, w': World) {
    w.phase.Leasing? && !w.phase.prepared && w.phase.props.Some?
    && (match Rollback(w.sys.pool, w.sys.running, w.phase.lease)
        case Refused(_) => w' == w
        case Settled(p, rows) => w' == w.(sys := w.sys.(pool := p, running := rows), phase := Shadow(false)))
  }

  /** A failed decode cycle, at any point before its commit, is undone. */
  ghost predicate Aborts(c: Config, w: World, w': World)
    requires c.Valid()
  {
    && (w.phase.Shadow? || w.phase.Leasing? || (w.phase.Batch? && w.phase.decode))
    && (match if w.phase.Leasing? then AbortSpeculative(c, w.sys, w.phase.lease) else UndoSchedule(c, w.sys)
        case UndoRefused => w' == w
        case Undone(y) => w' == w.(sys := y, phase := Free))
  }

  ghost predicate Step(c: Config, w: World, a: Action, w': World)
    requires c.Valid()
  {
    match a
    case AddRequest(id, prompt, maxTokens, ignoreEos) =>
      w.phase == Free && maxTokens >= 1 && UnusedId(w, id)
      && Admits(c, w, NewRow(id, prompt, maxTokens, ignoreEos), Admit(c, w.sys, id, prompt, maxTokens, ignoreEos), w')
    case CancelRequests(targets) => Cancels(c, w, targets, w')
    case ScheduleBatch => Schedules(c, w, w')
    case Forward(kv) => Forwards(c, w, kv, true, w')
    case Garble(kv) => Forwards(c, w, kv, false, w') || Verifies(c, w, kv, false, w')
    case CommitBatch(tokens) => w.phase.Batch? && w.phase.ran && Commits(c, w, tokens, map[], w')
    case PlanCycle(routeCap, certified) => Plans(c, w, routeCap, certified, w')
    case DraftPart(dkv) => Drafts(c, w, dkv, None, w')
    case Propose(props, dkv) => Drafts(c, w, dkv, Some(props), w')
    case PrepareWrites => Prepares(w, w')
    case Verify(kv) => Verifies(c, w, kv, true, w')
    case CommitBurst(results) => Bursts(c, w, results, w')
    case Handoff => HandsOff(w, w')
    case CommitShadow(tokens) => w.phase.Shadow? && w.phase.ran && Commits(c, w, tokens, StagedFor(w.sys.running), w')
    case AbortCycle => Aborts(c, w, w')
  }

  /** The part of the invariant that holds for any hash: queues, tables, reference
      counts, index and the live lease. */
  ghost predicate Shape(c: Config, w: World)
    requires c.Valid()
  {
    match w.phase
    case Free => Idle(c, w.sys)
    case Batch(ids, decode, _) => Ready(c, w.sys, ids) && (decode ==> PureDecode(c, w.sys))
    case Leasing(base, lease, k, prepared, _, _) => Leased(c, base, w.sys, lease, k, prepared)
    case Shadow(_) => PureDecode(c, w.sys)
    case Stalled => Common(c, w.sys, [])
  }

  /** What the two caches hold. */
  ghost predicate Facts(c: Config, w: World)
    requires c.Valid()
  {
    match w.phase
    case Free => Truthful(c, w.sys.pool, Rows(w.sys), w.kv, w.dkv)
    case Stalled => Truthful(c, w.sys.pool, Rows(w.sys), w.kv, w.dkv)
    case Batch(_, _, ran) =>
      && Truthful(c, w.sys.pool, Rows(w.sys), w.kv, w.dkv)
      && (ran ==> Ran(c, w.kv, w.sys.running + ChunkRows(w.sys)))
    case Leasing(base, lease, k, prepared, props, verified) =>
      && Truthful(c, LeaseBase(base, lease, prepared).pool, w.sys.running + w.sys.waiting, w.kv, w.dkv)
      && (props.Some? ==> Proposed(c, w.dkv, w.sys.running, props.value, k))
      && (verified ==> prepared && props.Some? && Verified(c, w.kv, w.sys.running, props.value, k))
    case Shadow(ran) =>
      && Truthful(c, w.sys.pool, Rows(w.sys), w.kv, w.dkv)
      && StagedTrue(c, w.dkv, w.sys.running, StagedFor(w.sys.running))
      && (ran ==> Ran(c, w.kv, w.sys.running + ChunkRows(w.sys)))
  }

  /** The invariant of every reachable world. */
  ghost predicate Inv(c: Config, w: World)
    requires c.Valid()
  {
    Shape(c, w) && Facts(c, w)
  }

  /** A fresh engine: every block free, nothing cached, no request. */
  ghost predicate Init(c: Config, w: World)
    requires c.Valid()
  {
    && w.phase == Free
    && w.sys == Sys(FreshPool(c), [], [], None)
    && w.past == History([], {}, [])
  }

  function FreshPool(c: Config): Pool {
    Pool(seq(c.numBlocks, i => Block(0, NO_HASH, [])), seq(c.numBlocks, i requires i >= 0 => i), {}, map[])
  }

  lemma InitInv(c: Config, w: World)
    requires c.Valid() && Init(c, w)
    ensures Inv(c, w)
  {
    var p := FreshPool(c);
    forall b: nat | b < c.numBlocks ensures b in p.free { assert p.free[b] == b; }
    assert Wf(p);
    assert Owned(p, Owners([]));
  }

  // ----- the steps that are not single commits -----

  lemma RequestStep(c: Config, w: World, a: Action, w': World)
    requires c.Valid() && Inv(c, w) && Step(c, w, a, w') && (a.AddRequest? || a.ScheduleBatch?)
    ensures Inv(c, w')
  {
    hide Idle, Truthful, Schedule, Cancel, Admit, Ready, Held, AllPlanned, AllComplete, Evolves, Cancels;
    match a
    case AddRequest(id, prompt, maxTokens, ignoreEos) =>
      AdmitKeeps(c, w.sys, id, prompt, maxTokens, ignoreEos);
    case ScheduleBatch =>
      NothingToSchedule(c, w.sys);
      if w.sys.waiting != [] || w.sys.running != [] {
        ScheduleProgress(c, w.sys);
        var s := Schedule(c, w.sys).value;
        IdleHeld(c, w.sys);
        ReadyHeld(c, s.sys, s.ids);
        ScheduleTruthful(c, w.sys.pool, Rows(w.sys), s.sys.pool, Rows(s.sys), w.kv, w.dkv);
        if !s.prefill { DecodeIsPure(c, s.sys, s.ids); }
      }
  }

  /** What every phase except a live lease has in common. */
  lemma ShapeCommon(c: Config, w: World)
    requires c.Valid() && Shape(c, w) && !w.phase.Leasing?
    ensures Common(c, w.sys, []) && (w.phase.Free? ==> Idle(c, w.sys))
  {
    hide Common, AllDecoding, AllComplete, AllPlanned, SchedTokens, Leased;
  }

  lemma EmptyIdle(c: Config, y: Sys)
    requires c.Valid() && Common(c, y, []) && Rows(y) == []
    ensures Idle(c, y)
  {
    hide Held;
    assert |Rows(y)| == |y.waiting| + |y.running|;
  }

  lemma RemoveShape(c: Config, w: World, targets: set<nat>, w': World)
    requires c.Valid() && Shape(c, w) && !w.phase.Leasing? && Removes(w, targets, w')
    ensures Cancel(w.sys, targets).CancelOk? && Shape(c, w')
  {
    hide Common, Idle, Ready, PureDecode, Cancel, Rows;
    ShapeCommon(c, w);
    CancelKeeps(c, w.sys, targets);
    if Rows(w'.sys) == [] { EmptyIdle(c, w'.sys); }
  }

  lemma RemoveKeeps(c: Config, w: World, targets: set<nat>, w': World)
    requires c.Valid() && Inv(c, w) && !w.phase.Leasing? && Removes(w, targets, w')
    ensures Inv(c, w')
  {
    hide Common, Idle, Ready, PureDecode, Cancel, Rows, Truthful, Ran, StagedTrue;
    ShapeCommon(c, w);
    RemoveShape(c, w, targets, w');
    CancelTruthful(c, w.sys, targets, w.kv, w.dkv);
  }

  lemma CancellationStep(c: Config, w: World, a: Action, w': World)
    requires c.Valid() && Inv(c, w) && Step(c, w, a, w') && a.CancelRequests?
    ensures Inv(c, w')
  {
    hide Shape, Facts, Removes, AbortSpeculative, NamesQueued;
    if NamesQueued(w.sys, a.targets) {
      if w.phase.Leasing? {
        var r := AbortSpeculative(c, w.sys, w.phase.lease);
        if r.Undone? {
          var v := w.(sys := r.sys, phase := Free);
          AbortStep(c, w, AbortCycle, v);
          RemoveKeeps(c, v, a.targets, w');
        }
      } else {
        RemoveKeeps(c, w, a.targets, w');
      }
    }
  }

  lemma IdleHeld(c: Config, y: Sys)
    requires c.Valid() && Idle(c, y)
    ensures Held(c, y.pool, Rows(y))
  {
    hide Held;
    RowsPlain(y);
  }

  lemma ReadyHeld(c: Config, y: Sys, ids: seq<nat>)
    requires c.Valid() && Ready(c, y, ids)
    ensures Held(c, y.pool, Rows(y))
  {
    hide Held;
    RowsPlain(y);
  }

  lemma DecodeIsPure(c: Config, y: Sys, ids: seq<nat>)
    requires c.Valid() && Ready(c, y, ids) && AllPlanned(y.running) && ids == Ids(y.running) && ChunkIds(y) == []
    ensures PureDecode(c, y)
  {
    hide Held, Partial, Quiet;
  }

  lemma ScheduledPure(c: Config, y: Sys)
    requires c.Valid() && Idle(c, y) && (y.waiting != [] || y.running != [])
    ensures Schedule(c, y).Ok?
    ensures var s := Schedule(c, y).value;
      Ready(c, s.sys, s.ids) && (!s.prefill ==> PureDecode(c, s.sys) && |s.ids| == |s.sys.running|)
  {
    hide Idle, Schedule, Ready, PureDecode, Evolves, AllPlanned;
    ScheduleProgress(c, y);
    var s := Schedule(c, y).value;
    if !s.prefill { DecodeIsPure(c, s.sys, s.ids); }
  }

  lemma TargetStep(c: Config, w: World, a: Action, w': World)
    requires c.Valid() && Inv(c, w) && Step(c, w, a, w') && (a.Forward? || a.Garble? || a.Verify?)
    ensures Inv(c, w')
  {
    hide Truthful, Ready, PureDecode, Leased, Held, Isolated, Scribble, Ran, StagedTrue, Proposed, Verified, LeaseBase, Rows;
    if w.phase.Leasing? {
      LeasedWriteIsolation(c, w.phase.base, w.sys, w.phase.lease, w.phase.k, w.kv, w'.kv, w.dkv);
    } else {
      if w.phase.Batch? {
        ReadyHeld(c, w.sys, w.phase.ids);
      } else {
        PureReady(c, w.sys);
        ReadyHeld(c, w.sys, Ids(w.sys.running));
      }
      HeldIsolated(c, w.sys.pool, Rows(w.sys));
      WriteIsolation(c, w.sys.pool, Rows(w.sys), w.kv, w'.kv, w.dkv);
    }
  }

  lemma PureReady(c: Config, y: Sys)
    requires c.Valid() && PureDecode(c, y)
    ensures Ready(c, y, Ids(y.running)) && ChunkRows(y) == [] && AllPlanned(y.running)
  {
    hide Held, Partial, Complete, Planned;
  }

  lemma DraftStep(c: Config, w: World, a: Action, w': World)
    requires c.Valid() && Inv(c, w) && Step(c, w, a, w') && (a.DraftPart? || a.Propose?)
    ensures Inv(c, w')
  {
    hide Ready, PureDecode, Leased, Held, Isolated, DraftPass, Proposed, Verified, IndexTrue, AllTrue, LeaseBase;
    var ph := w.phase;
    LeasedIsolated(c, ph.base, w.sys, ph.lease, ph.k, ph.prepared);
    LeasedDrafts(c, ph.base, w.sys, ph.lease, ph.k, ph.prepared);
    DraftPassTruthful(c, w.sys.pool, w.sys.running + w.sys.waiting, w.kv, w.dkv, w'.dkv);
  }

  lemma LeasedDrafts(c: Config, base: Sys, y: Sys, lease: Lease, k: nat, prepared: bool)
    requires c.Valid() && Leased(c, base, y, lease, k, prepared)
    ensures forall s :: s in y.running + y.waiting ==> s.draft <= s.cached
  {
    hide Leased, PureDecode, LeaseOf, Took, Flatten, Wf, Owned, Contents, Fits, LeaseBase, Held;
    BaseHeld(c, base, y, lease, k, prepared);
    LeasedParts(c, base, y, lease, k, prepared);
    var p := LeaseBase(base, lease, prepared).pool;
    LeaseGrown(p, base.running, y.pool, y.running, lease);
    forall s | s in y.running + y.waiting ensures s.draft <= s.cached {
      var i :| 0 <= i < |y.running + y.waiting| && (y.running + y.waiting)[i] == s;
      var s0 := (base.running + base.waiting)[i];
      HeldMember(c, p, base.running + base.waiting, s0);
      if i < |base.running| { assert GrownAs(base.running[i], y.running[i], lease.rows[i]); }
    }
  }

  lemma PlanStep(c: Config, w: World, a: Action, w': World)
    requires c.Valid() && Inv(c, w) && Step(c, w, a, w') && (a.PlanCycle? || a.PrepareWrites?)
    ensures Inv(c, w')
  {
    hide Ready, PureDecode, Leased, IndexTrue, AllTrue, Proposed, Verified, PlanSpeculative, Prepare, Evicted, Ran;
    match a
    case PlanCycle(routeCap, certified) =>
      PlanKeeps(c, w.sys, routeCap, certified);
      if w' != w {
        var ph := w'.phase;
        LeasedTrue(c, w.sys, w'.sys, ph.lease, ph.k, false, w.kv, w.dkv);
        AllTrueConcat(c, w.kv, w.dkv, w.sys.waiting, w.sys.running);
        AllTrueConcat(c, w.kv, w.dkv, w.sys.running, w.sys.waiting);
      }
    case PrepareWrites =>
      var ph := w.phase;
      PrepareKeeps(c, ph.base, w.sys, ph.lease, ph.k);
      assert Prepare(ph.lease).order == ph.lease.order by { PrepareOrder(ph.lease); }
      EvictedTruthful(c, ph.base.pool, ph.lease.order, w.sys.running + w.sys.waiting, w.kv, w.dkv);
  }

  lemma PrepareOrder(lease: Lease)
    ensures Prepare(lease).order == lease.order
  {
  }

  // ----- the commits and aborts -----

  lemma {:induction false} StagedForIs(q: seq<Row>, i: nat)
    requires Distinct(q) && i < |q|
    ensures q[i].id in StagedFor(q) && StagedFor(q)[q[i].id] == |q[i].toks|
  {
    if i > 0 {
      assert forall j, k :: 0 <= j < k < |q| - 1 ==> q[1..][j] == q[j + 1] && q[1..][k] == q[k + 1];
      StagedForIs(q[1..], i - 1);
    }
  }

  lemma PureDistinct(c: Config, y: Sys)
    requires c.Valid() && PureDecode(c, y)
    ensures Distinct(y.running)
  {
    PureHeld(c, y);
    DistinctPart(y.running, y.waiting);
  }

  /** One accepted ordinary commit, whatever coverage was staged for it. */
  lemma AcceptedKeeps(c: Config, y: Sys, ids: seq<nat>, tokens: seq<Token>, staged: Coverage, kv: Cache, dkv: Cache)
    requires c.Valid() && Injective(c) && Ready(c, y, ids) && Postprocess(c, y, tokens, staged).PostOk?
    requires StagedFits(y.running, staged) && StagedTrue(c, dkv, y.running, staged)
    requires Truthful(c, y.pool, Rows(y), kv, dkv) && Ran(c, kv, y.running + ChunkRows(y))
    ensures var z := Postprocess(c, y, tokens, staged).sys;
      Idle(c, z) && Truthful(c, z.pool, Rows(z), kv, dkv)
  {
    hide Ready, Ran, Truthful, StagedTrue, Idle, Postprocess, StagedFits, Rows, Injective;
    AcceptedCommit(c, y, ids, tokens, staged);
    PostprocessKeeps(c, y, ids, tokens, staged);
    PostprocessTruthful(c, y, ids, tokens, staged, kv, dkv);
  }

  lemma StagedForFits(q: seq<Row>)
    requires Distinct(q)
    ensures StagedFits(q, StagedFor(q))
  {
    forall i | 0 <= i < |q| ensures q[i].id in StagedFor(q) && StagedFor(q)[q[i].id] == |q[i].toks| {
      StagedForIs(q, i);
    }
  }

  lemma OrdinaryCommitStep(c: Config, w: World, a: Action, w': World)
    requires c.Valid() && Injective(c) && Inv(c, w) && Step(c, w, a, w') && (a.CommitBatch? || a.CommitShadow?)
    ensures Inv(c, w')
  {
    hide Ready, PureDecode, Ran, Truthful, StagedTrue, Idle, Postprocess, StagedFits, StagedFor, Rows, Distinct, Injective,
         Held, ChunkRows, AllPlanned;
    if w' != w {
      if w.phase.Shadow? {
        PureReady(c, w.sys);
        PureDistinct(c, w.sys);
        StagedForFits(w.sys.running);
        AcceptedKeeps(c, w.sys, Ids(w.sys.running), a.tokens, StagedFor(w.sys.running), w.kv, w.dkv);
      } else {
        NothingStaged(c, w.dkv, w.sys.running);
        AcceptedKeeps(c, w.sys, w.phase.ids, a.tokens, map[], w.kv, w.dkv);
      }
    }
  }

  lemma NothingStaged(c: Config, dkv: Cache, q: seq<Row>)
    ensures StagedTrue(c, dkv, q, map[]) && StagedFits(q, map[])
  {
  }

  /** A commit that is not refused had one in-vocabulary token per scheduled row. */
  lemma AcceptedCommit(c: Config, y: Sys, ids: seq<nat>, tokens: seq<Token>, staged: Coverage)
    requires c.Valid() && Ready(c, y, ids) && Postprocess(c, y, tokens, staged).PostOk?
    ensures |tokens| == |ids| && AllInVocabulary(c, tokens)
  {
    ReadyParts(c, y, ids);
    hide PostRows, Held, Ready, InVocabulary;
  }

  lemma BurstStep(c: Config, w: World, a: Action, w': World)
    requires c.Valid() && Injective(c) && Inv(c, w) && Step(c, w, a, w') && a.CommitBurst?
    ensures Inv(c, w')
  {
    hide Leased, LeaseBase, Truthful, Proposed, Verified, Idle, Rows, ValidResult;
    if w' != w {
      var ph := w.phase;
      AcceptedBurst(c, ph.base, w.sys, ph.lease, ph.k, true, a.results);
      hide CommitSpeculative;
      CommitKeeps(c, ph.base, w.sys, ph.lease, ph.k, true, a.results);
      CommitTruthful(c, ph.base, w.sys, ph.lease, ph.k, a.results, ph.props.value, w.kv, w.dkv);
    }
  }

  lemma AcceptedBurst(c: Config, base: Sys, y: Sys, lease: Lease, k: nat, prepared: bool, results: seq<SpecRow>)
    requires c.Valid() && Leased(c, base, y, lease, k, prepared) && CommitSpeculative(c, y, lease, k, results).CommitOk?
    ensures ResultsValid(c, k, results, |base.running|)
  {
    LeasedNonEmpty(c, base, y, lease, k, prepared);
    RunningFields(c, base, y, lease, k, prepared, 0);
    hide Leased, ValidResult, Finalize, BurstRows, Surviving;
  }

  /** Before the lease is prepared, giving it back restores the scheduled state, and
      the proposals leave every committed prefix in the draft cache. */
  lemma HandoffRestores(c: Config, base: Sys, y: Sys, lease: Lease, k: nat, props: seq<seq<Token>>, kv: Cache, dkv: Cache)
    requires c.Valid() && Leased(c, base, y, lease, k, false) && Proposed(c, dkv, y.running, props, k)
    ensures Rollback(y.pool, y.running, lease) == Settled(base.pool, base.running)
    ensures y.waiting == base.waiting && y.mid == base.mid && PureDecode(c, base)
    ensures StagedTrue(c, dkv, base.running, StagedFor(base.running))
  {
    hide PureDecode, LeaseOf, LeaseBase, Rollback, StagedFor, StagedTrue, Proposed, Leased;
    LeasedParts(c, base, y, lease, k, false);
    NotPrepared(base, lease);
    RollbackExact(base.pool, base.running, y.pool, y.running, lease);
    HandoffCovers(c, base, y, lease, k, props, dkv);
  }

  lemma HandoffCovers(c: Config, base: Sys, y: Sys, lease: Lease, k: nat, props: seq<seq<Token>>, dkv: Cache)
    requires c.Valid() && Leased(c, base, y, lease, k, false) && Proposed(c, dkv, y.running, props, k)
    ensures StagedTrue(c, dkv, base.running, StagedFor(base.running))
  {
    LeasedParts(c, base, y, lease, k, false);
    PureDistinct(c, base);
    hide PureDecode, LeaseOf, StagedFor, TrueTo, Leased, Distinct;
    forall s | s in base.running && s.id in StagedFor(base.running)
      ensures TrueTo(c.blockSize, dkv, s.table, s.toks, StagedFor(base.running)[s.id])
    {
      var i :| 0 <= i < |base.running| && base.running[i] == s;
      StagedForIs(base.running, i);
      RunningFields(c, base, y, lease, k, false, i);
      CommittedDraft(c.blockSize, dkv, s, y.running[i].table, props[i], k);
    }
  }

  /** A proposal pass covers the committed prefix of the row it extends. */
  lemma CommittedDraft(bs: nat, dkv: Cache, s: Row, t: seq<nat>, more: seq<Token>, k: nat)
    requires k >= 1 && TrueTo(bs, dkv, t, s.toks + more, |s.toks| + k - 1) && s.table <= t
    ensures TrueTo(bs, dkv, s.table, s.toks, |s.toks|)
  {
    hide TrueTo;
    var x := s.toks + more;
    TrueLess(bs, dkv, t, s.table, x, |s.toks| + k - 1, |s.toks|);
    assert x[..|s.toks|] == s.toks[..|s.toks|];
    TruePrefix(bs, dkv, s.table, x, s.toks, |s.toks|, |s.toks|);
  }

  lemma HandoffStep(c: Config, w: World, a: Action, w': World)
    requires c.Valid() && Inv(c, w) && Step(c, w, a, w') && a.Handoff?
    ensures Inv(c, w')
  {
    var ph := w.phase;
    hide Leased, PureDecode, IndexTrue, AllTrue, Rollback, StagedFor, StagedTrue, Proposed;
    HandoffRestores(c, ph.base, w.sys, ph.lease, ph.k, ph.props.value, w.kv, w.dkv);
    LeasedTrue(c, ph.base, w.sys, ph.lease, ph.k, false, w.kv, w.dkv);
    AllTrueConcat(c, w.kv, w.dkv, ph.base.running, ph.base.waiting);
    AllTrueConcat(c, w.kv, w.dkv, ph.base.waiting, ph.base.running);
    assert w'.sys == ph.base;
  }

  lemma AbortStep(c: Config, w: World, a: Action, w': World)
    requires c.Valid() && Inv(c, w) && Step(c, w, a, w') && a.AbortCycle?
    ensures Inv(c, w')
  {
    hide Ready, Leased, PureDecode, IndexTrue, AllTrue, UndoSchedule, AbortSpeculative, Idle, Ran, StagedTrue, Evicted;
    if w.phase.Leasing? {
      var ph := w.phase;
      LeasedTrue(c, ph.base, w.sys, ph.lease, ph.k, ph.prepared, w.kv, w.dkv);
      AllTrueConcat(c, w.kv, w.dkv, ph.base.running, ph.base.waiting);
      AllTrueConcat(c, w.kv, w.dkv, ph.base.waiting, ph.base.running);
      AbortKeeps(c, ph.base, w.sys, ph.lease, ph.k, ph.prepared);
      LeaseBasePure(c, ph.base, w.sys, ph.lease, ph.k, ph.prepared);
      UndoTruthful(c, LeaseBase(ph.base, ph.lease, ph.prepared), w.kv, w.dkv);
    } else {
      UndoKeeps(c, w.sys);
      UndoTruthful(c, w.sys, w.kv, w.dkv);
    }
  }

  /** Every step of the protocol keeps the invariant. */
  lemma StepKeepsInv(c: Config, w: World, a: Action, w': World)
    requires c.Valid() && Injective(c) && Inv(c, w) && Step(c, w, a, w')
    ensures Inv(c, w')
  {
    hide Inv, Step, Injective;
    match a
    case AddRequest(_, _, _, _) => RequestStep(c, w, a, w');
    case CancelRequests(_) => CancellationStep(c, w, a, w');
    case ScheduleBatch => RequestStep(c, w, a, w');
    case Forward(_) => TargetStep(c, w, a, w');
    case Garble(_) => TargetStep(c, w, a, w');
    case CommitBatch(_) => OrdinaryCommitStep(c, w, a, w');
    case PlanCycle(_, _) => PlanStep(c, w, a, w');
    case DraftPart(_) => DraftStep(c, w, a, w');
    case Propose(_, _) => DraftStep(c, w, a, w');
    case PrepareWrites => PlanStep(c, w, a, w');
    case Verify(_) => TargetStep(c, w, a, w');
    case CommitBurst(_) => BurstStep(c, w, a, w');
    case Handoff => HandoffStep(c, w, a, w');
    case CommitShadow(_) => OrdinaryCommitStep(c, w, a, w');
    case AbortCycle => AbortStep(c, w, a, w');
  }

  /** A run: consecutive worlds related by steps, from a fresh engine. */
  ghost predicate Run(c: Config, run: seq<World>, acts: seq<Action>)
    requires c.Valid()
  {
    && |run| == |acts| + 1 && Init(c, run[0])
    && forall i :: 0 <= i < |acts| ==> Step(c, run[i], acts[i], run[i + 1])
  }

  lemma {:induction false} RunInv(c: Config, run: seq<World>, acts: seq<Action>, n: nat)
    requires c.Valid() && Injective(c) && Run(c, run, acts) && n < |run|
    ensures Inv(c, run[n])
  {
    hide Inv, Step, Init;
    if n == 0 {
      InitInv(c, run[0]);
    } else {
      RunInv(c, run, acts, n - 1);
      StepKeepsInv(c, run[n - 1], acts[n - 1], run[n]);
    }
  }

  lemma InvTruth(c: Config, w: World, s: Row)
    requires c.Valid() && Inv(c, w) && s in Rows(w.sys)
    ensures IndexTrue(c, w.sys.pool, w.kv) && RowTrue(c, w.kv, w.dkv, s)
  {
    hide Idle, Ready, Leased, PureDecode, IndexTrue, TrueTo, LeaseBase, Ran, Proposed, Verified, StagedTrue, Common;
    if w.phase.Leasing? {
      var ph := w.phase;
      LeasedIsolated(c, ph.base, w.sys, ph.lease, ph.k, ph.prepared);
      IndexShrinks(c, LeaseBase(ph.base, ph.lease, ph.prepared).pool, w.sys.pool, w.kv);
      assert s in w.sys.running + w.sys.waiting;
    }
  }

  /** Cache truth over every run: at any point, each owned position below a request's
      target (draft) coverage holds the target (draft) cache entry of exactly that
      request's prefix, and each indexed block holds the block its digest names. */
  lemma CacheTruth(c: Config, run: seq<World>, acts: seq<Action>, n: nat, s: Row)
    requires c.Valid() && Injective(c) && Run(c, run, acts) && n < |run| && s in Rows(run[n].sys)
    ensures IndexTrue(c, run[n].sys.pool, run[n].kv)
    ensures TrueTo(c.blockSize, run[n].kv, s.table, s.toks, s.cached)
    ensures TrueTo(c.blockSize, run[n].dkv, s.table, s.toks, s.draft)
  {
    hide Injective, Inv, Step, Init, IndexTrue, TrueTo;
    RunInv(c, run, acts, n);
    InvTruth(c, run[n], s);
  }
}
