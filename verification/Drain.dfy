/** Every closed run drains: each successful engine step, whatever tokens the model
    returns, lowers the remaining work, despite preemption and recomputation. */
module Drain {
  import opened Arith
  import opened Types
  import opened Pools
  import opened Allocator
  import opened Queues
  import opened Evolution
  import opened Scheduling
  import opened States
  import opened Progress
  import opened Commit
  import opened Leases
  import opened Speculation
  import opened Burst
  import opened Transactions
  import opened Delivery
  import opened Protocol

  // ----- the measure -----

  function Left(s: Row): nat { Max(s.Remaining(), 0) }

  /** Completion tokens the live requests may still produce. */
  function Remains(q: seq<Row>): nat {
    if q == [] then 0 else Left(q[0]) + Remains(q[1..])
  }

  /** Tokens of the waiting head that are not cached. */
  function Uncached(y: Sys): nat {
    if y.waiting == [] then 0 else Max(|y.waiting[0].toks| - y.waiting[0].cached, 0)
  }

  ghost predicate Lower(a: Sys, b: Sys) {
    Remains(Rows(a)) < Remains(Rows(b)) || (Remains(Rows(a)) == Remains(Rows(b)) && Uncached(a) < Uncached(b))
  }

  lemma {:induction false} RemainsConcat(a: seq<Row>, b: seq<Row>)
    ensures Remains(a + b) == Remains(a) + Remains(b)
  {
    if a == [] {
      assert a + b == b;
    } else {
      assert (a + b)[1..] == a[1..] + b;
      RemainsConcat(a[1..], b);
    }
  }

  lemma RemainsAt(b: seq<Row>, i: nat)
    requires i < |b|
    ensures Remains(b) == Left(b[i]) + Remains(b[..i] + b[i + 1..])
  {
    hide Left, Remains;
    assert b == b[..i] + ([b[i]] + b[i + 1..]);
    RemainsConcat(b[..i], [b[i]] + b[i + 1..]);
    RemainsConcat([b[i]], b[i + 1..]);
    RemainsConcat(b[..i], b[i + 1..]);
    RemainsOne(b[i]);
  }

  lemma RemainsOne(s: Row)
    ensures Remains([s]) == Left(s)
  {
    assert [s][1..] == [];
  }

  lemma LeftOfCore(s: Row, s': Row)
    requires Core(s) == Core(s')
    ensures Left(s) == Left(s')
  {
    assert Core(s).toks == s.toks && Core(s).prompt == s.prompt && Core(s).maxTokens == s.maxTokens;
    assert Core(s').toks == s'.toks && Core(s').prompt == s'.prompt && Core(s').maxTokens == s'.maxTokens;
  }

  lemma {:induction false} CoresCount(q: seq<Row>)
    ensures |Cores(q)| == |q|
  {
    if q != [] { CoresCount(q[1..]); }
  }

  /** Remaining work belongs to the requests, not to their queues or cache state. */
  lemma {:induction false} RemainsCores(a: seq<Row>, b: seq<Row>)
    requires Cores(a) == Cores(b)
    ensures Remains(a) == Remains(b)
    decreases |a|
  {
    hide Core, Left;
    if a == [] {
      CoresCount(a);
      CoresCount(b);
    } else {
      assert Core(a[0]) in Cores(a);
      CoresMember(b, Core(a[0]));
      var i :| 0 <= i < |b| && Core(b[i]) == Core(a[0]);
      CoresAt(b, i);
      LeftOfCore(b[i], a[0]);
      RemainsAt(b, i);
      var rest := b[..i] + b[i + 1..];
      assert Cores(a[1..]) == Cores(a) - multiset{Core(a[0])};
      assert Cores(rest) == Cores(b) - multiset{Core(b[i])};
      RemainsCores(a[1..], rest);
    }
  }

  /** Every row that commits has at least one token left and gives one up. */
  lemma {:induction false} RemainsCommit(c: Config, rows: seq<Row>, cuts: seq<seq<Token>>, rows': seq<Row>)
    requires |rows| == |cuts| == |rows'|
    requires forall i :: 0 <= i < |rows| ==> RowCommits(c, rows[i], cuts[i], rows'[i]) && rows[i].Remaining() >= 1
    ensures Remains(Surviving(rows')) + |rows| <= Remains(rows)
  {
    if rows != [] {
      hide RowCommits;
      assert forall i :: 0 <= i < |rows| - 1 ==>
        rows[1..][i] == rows[i + 1] && cuts[1..][i] == cuts[i + 1] && rows'[1..][i] == rows'[i + 1];
      RemainsCommit(c, rows[1..], cuts[1..], rows'[1..]);
      assert rows' == [rows'[0]] + rows'[1..];
      SurvivingCons(rows'[0], rows'[1..]);
      LeftCommit(c, rows[0], cuts[0], rows'[0]);
    }
  }

  lemma LeftCommit(c: Config, s: Row, ts: seq<Token>, s': Row)
    requires RowCommits(c, s, ts, s') && s.Remaining() >= 1
    ensures Left(s) >= 1 && (s'.status != Finished ==> Left(s') + 1 <= Left(s))
  {
  }

  lemma {:induction false} RemainsPointwise(a: seq<Row>, b: seq<Row>)
    requires |a| == |b| && forall i :: 0 <= i < |a| ==> Left(a[i]) == Left(b[i])
    ensures Remains(a) == Remains(b)
  {
    if a != [] {
      assert forall i :: 0 <= i < |a| - 1 ==> a[1..][i] == a[i + 1] && b[1..][i] == b[i + 1];
      RemainsPointwise(a[1..], b[1..]);
    }
  }

  // ----- ordinary steps -----

  lemma AdvancedRemains(y: Sys)
    ensures Remains(Advanced(y)) == Remains(y.waiting)
  {
    RemainsPointwise(Advanced(y), y.waiting);
  }

  lemma RowsRemaining(c: Config, y: Sys, ids: seq<nat>)
    requires c.Valid() && Ready(c, y, ids)
    ensures forall i :: 0 <= i < |y.running| ==> y.running[i].Remaining() >= 1
    ensures y.waiting != [] ==> y.waiting[0].cached <= |y.waiting[0].toks|
  {
    ReadyHeld(c, y, ids);
    forall i | 0 <= i < |y.running| ensures y.running[i].Remaining() >= 1 {
      assert y.running[i] in Rows(y);
      HeldMember(c, y.pool, Rows(y), y.running[i]);
    }
    if y.waiting != [] {
      assert y.waiting[0] in Rows(y);
      HeldMember(c, y.pool, Rows(y), y.waiting[0]);
    }
  }

  /** An ordinary commit uses up one completion token per running row. */
  lemma OrdinaryLowers(c: Config, y: Sys, ids: seq<nat>, tokens: seq<Token>, staged: Coverage)
    requires c.Valid() && Ready(c, y, ids) && |tokens| == |ids| && AllInVocabulary(c, tokens)
    requires StagedFits(y.running, staged)
    ensures var r := Postprocess(c, y, tokens, staged);
      && r.PostOk? && r.sys.waiting == Advanced(y)
      && Remains(Rows(r.sys)) + |y.running| <= Remains(Rows(y))
  {
    hide Ready, Postprocess, AllInVocabulary, StagedFits, Idle, Committed, Advanced, PostRows, Covered, Distinct, Emitted,
         Surviving, RowCommits, Remains, Left, Row.Remaining;
    PostprocessKeeps(c, y, ids, tokens, staged);
    PostprocessWaiting(c, y, ids, tokens, staged);
    ReadyRunning(c, y, ids);
    RowsRemaining(c, y, ids);
    var z := Postprocess(c, y, tokens, staged).sys;
    var ts := tokens[..|y.running|];
    var out := PostRows(c, y.pool, y.running, ts).rows;
    forall i | 0 <= i < |out| ensures RowCommits(c, y.running[i], Singles(ts)[i], out[i]) {
      CommittedCommits(c, y.running[i], tokens[i], out[i]);
    }
    RemainsCommit(c, y.running, Singles(ts), out);
    CoveredRemains(Surviving(out), staged);
    AdvancedRemains(y);
    RemainsConcat(y.waiting, y.running);
    RemainsConcat(z.waiting, z.running);
  }

  lemma CoveredRemains(q: seq<Row>, staged: Coverage)
    ensures Remains(Covered(q, staged)) == Remains(q)
  {
    RemainsPointwise(Covered(q, staged), q);
  }

  /** With no decoder, the head of the waiting queue gets a non-empty chunk. */
  lemma PlaceAdvances(c: Config, p: Pool, s: Row, remaining: nat)
    requires c.Valid() && Place(c, p, s, remaining).Placed? && (s.table == [] ==> s.cached == 0)
    ensures var r := Place(c, p, s, remaining).row; r.toks == s.toks && r.cached >= s.cached && r.sched >= 1
  {
    hide Hits, Grow, AttachAll, CeilDiv;
  }

  /** A step that decodes nothing advances the waiting head it found. */
  lemma FirstChunk(c: Config, y: Sys)
    requires c.Valid() && Idle(c, y) && y.running == [] && y.waiting != []
    ensures Schedule(c, y).Ok?
    ensures var z := Schedule(c, y).value.sys;
      z.running == [] ==>
        && z.waiting != [] && z.waiting[0].toks == y.waiting[0].toks
        && z.waiting[0].cached >= y.waiting[0].cached && z.waiting[0].sched >= 1
  {
    hide Common, DecodePhase, FillPhase, Complete, Evolves;
    ScheduleProgress(c, y);
    IdlePrefill(c, y);
    assert y.(running := [] + y.running) == y;
    assert Rows(y) + [] == Rows(y);
    FirstFill(c, y);
  }

  lemma FirstFill(c: Config, y: Sys)
    requires c.Valid() && Idle(c, y) && y.running == [] && y.waiting != []
    ensures FillPhase(c, y, [], 0).Ok?
    ensures var z := FillPhase(c, y, [], 0).value.sys;
      z.running == [] ==>
        && z.waiting != [] && z.waiting[0].toks == y.waiting[0].toks
        && z.waiting[0].cached >= y.waiting[0].cached && z.waiting[0].sched >= 1
  {
    hide Common, Evolves, Place, RowOk, From, Wf, Owned, Keeps, Shrinks, Complete, Filling, Idle, FilledOk, NoChunk, Owners, Ids;
    FillingAtStart(c, y);
    FillPhaseKeeps(c, y, [], 0);
    FillingParts(c, y);
    PlaceHead(c, y, c.budget);
    HeadFresh(c, y);
    PlaceAdvances(c, y.pool, y.waiting[0], c.budget);
    var r := Place(c, y.pool, y.waiting[0], c.budget);
    if r.row.sched >= r.work { CompleteStays(c, y, r.pool, r.row); }
  }

  lemma FillingAtStart(c: Config, y: Sys)
    requires c.Valid() && Idle(c, y) && y.running == []
    ensures Filling(c, y, [], 0)
  {
    hide Common;
  }

  lemma FillingParts(c: Config, y: Sys)
    requires c.Valid() && Filling(c, y, [], 0)
    ensures Common(c, y, []) && NoChunk(y)
  {
  }

  lemma HeadFresh(c: Config, y: Sys)
    requires c.Valid() && Common(c, y, []) && y.waiting != []
    ensures y.waiting[0].table == [] ==> y.waiting[0].cached == 0
  {
    RowsPlain(y);
    assert y.waiting[0] in Rows(y);
    HeldMember(c, y.pool, Rows(y), y.waiting[0]);
    hide Held;
    if y.waiting[0].table == [] {
      CeilBounds(y.waiting[0].cached + y.waiting[0].sched, c.blockSize);
    }
  }

  /** Once a row joins the running queue, the fill phase keeps it there. */
  lemma CompleteStays(c: Config, y: Sys, pool: Pool, row: Row)
    requires c.Valid() && Filling(c, y, [], 0) && y.running == [] && y.waiting != []
    requires Place(c, y.pool, y.waiting[0], c.budget).Placed?
    requires var r := Place(c, y.pool, y.waiting[0], c.budget); r.pool == pool && r.row == row && r.row.sched >= r.work
    ensures FillPhase(c, y, [], 0).Ok? && FillPhase(c, y, [], 0).value.sys.running != []
  {
    hide Common, Evolves, Place, RowOk, From, Wf, Owned, Keeps, Shrinks, Complete, Filling;
    assert Common(c, y, []) && NoChunk(y) && ([] == Ids(y.running)) && 0 == SchedTokens(y.running) by { FillingParts(c, y); }
    PlaceHead(c, y, c.budget);
    PlacedComplete(c, y);
    FillComplete(c, y, [], 0, pool, row);
    var y' := Placing(y, pool, row, 0);
    assert [] + [y.waiting[0].id] == [y.waiting[0].id];
    FillPhaseKeeps(c, y', [] + [y.waiting[0].id], 0 + row.sched);
  }

  lemma PlacedComplete(c: Config, y: Sys)
    requires c.Valid() && y.waiting != [] && Place(c, y.pool, y.waiting[0], c.budget).Placed?
    requires var r := Place(c, y.pool, y.waiting[0], c.budget); r.row.sched >= r.work
    ensures var r := Place(c, y.pool, y.waiting[0], c.budget).row; r.cached + r.sched == |r.toks|
  {
    hide Place;
  }

  /** Some row is running after a schedule that found a running row. */
  lemma RunningStays(c: Config, y: Sys)
    requires c.Valid() && Idle(c, y) && y.running != []
    ensures Schedule(c, y).Ok? && Schedule(c, y).value.sys.running != []
  {
    hide Common, Evolves, DecodePhase, FillPhase, Planned, Complete;
    ScheduleProgress(c, y);
    assert Rows(y) + [] == Rows(y);
    DecodePhaseKeeps(c, y, []);
    var Decoded(y1, done) := DecodePhase(c, y, []).value;
    AfterDecode(c, y1, done);
    FillPhaseKeeps(c, y1.(running := done + y1.running), Ids(done), |done|);
  }

  /** Scheduling keeps the remaining work; the commit then lowers the measure. */
  lemma ScheduledLowers(c: Config, y: Sys, z: Sys)
    requires c.Valid() && Idle(c, y) && (y.waiting != [] || y.running != []) && Schedule(c, y).Ok?
    requires var s := Schedule(c, y).value;
      Remains(Rows(z)) + |s.sys.running| <= Remains(Rows(s.sys)) && (s.sys.running == [] ==> z.waiting == Advanced(s.sys))
    ensures Lower(z, y)
  {
    ScheduleProgress(c, y);
    var s := Schedule(c, y).value;
    RemainsCores(Rows(y), Rows(s.sys)) by { hide From; }
    hide Idle, Ready, Evolves, Remains, Rows;
    RowsRemaining(c, s.sys, s.ids);
    if s.sys.running == [] {
      if y.running != [] { RunningStays(c, y); }
      FirstChunk(c, y);
    }
  }

  // ----- whole engine steps -----

  /** What the environment decides in one engine step: the model's tokens, and, for a
      speculative step, whether the route is certified and what was verified. */
  datatype Choice =
    | Plain(tokens: seq<Token>)
    | Verified(tokens: seq<Token>, routeCap: nat, certified: bool, results: seq<SpecRow>)
    | Shadowed(tokens: seq<Token>, routeCap: nat, certified: bool)

  datatype Stepped = Made(sys: Sys, events: seq<Event>) | Raised

  function Post(r: PostResult): Stepped {
    match r case PostOk(y, ev) => Made(y, ev) case PostErr(_) => Raised
  }

  /** The speculative half of a step, from a pure decode schedule x. */
  ghost function SpeculativeStep(c: Config, x: Sys, ch: Choice): Stepped
    requires c.Valid() && !ch.Plain?
  {
    match PlanSpeculative(c, x, ch.routeCap, ch.certified)
    case PlanFailed(_) => Raised
    case Bypass => Post(Postprocess(c, x, ch.tokens, map[]))
    case Speculate(k, pool, rows, lease) =>
      if ch.Verified? then
        match CommitSpeculative(c, x.(pool := pool, running := rows), Prepare(lease), k, ch.results)
        case CommitOk(z, ev) => Made(z, ev)
        case CommitFailed(_) => Raised
      else
        match Rollback(pool, rows, lease)
        case Refused(_) => Raised
        case Settled(p, rows') =>
          Post(Postprocess(c, x.(pool := p, running := rows'), ch.tokens, StagedFor(rows')))
  }

  /** One engine step without failures of the model: schedule, then an ordinary
      commit, a verified burst, or a shadow cycle followed by an ordinary commit. */
  ghost function EngineStep(c: Config, y: Sys, ch: Choice): Stepped
    requires c.Valid()
  {
    match Schedule(c, y)
    case Err(_) => Raised
    case Ok(s) =>
      if s.prefill || ch.Plain? then Post(Postprocess(c, s.sys, ch.tokens, map[]))
      else SpeculativeStep(c, s.sys, ch)
  }

  /** The model returns one in-vocabulary token per scheduled row, and verification
      results are well-formed. */
  ghost predicate Proper(c: Config, y: Sys, ch: Choice)
    requires c.Valid()
  {
    Schedule(c, y).Ok? ==>
      var s := Schedule(c, y).value;
      |ch.tokens| == |s.ids| && AllInVocabulary(c, ch.tokens) && ProperResults(c, s.sys, ch)
  }

  ghost predicate ProperResults(c: Config, x: Sys, ch: Choice)
    requires c.Valid()
  {
    ch.Verified? ==>
      var p := PlanSpeculative(c, x, ch.routeCap, ch.certified);
      p.Speculate? ==> ResultsValid(c, p.k, ch.results, |x.running|)
  }

  /** What a successful step from y guarantees. */
  ghost predicate StepOk(c: Config, y: Sys, r: Stepped)
    requires c.Valid()
  {
    && r.Made? && Idle(c, r.sys) && Lower(r.sys, y) && Delivers(c, Rows(y), r.events, Rows(r.sys))
  }

  /** The commit half of a step, from the scheduled state x. */
  ghost predicate HalfOk(c: Config, x: Sys, r: Stepped)
    requires c.Valid()
  {
    && r.Made? && Idle(c, r.sys) && Delivers(c, Rows(x), r.events, Rows(r.sys))
    && Remains(Rows(r.sys)) + |x.running| <= Remains(Rows(x))
    && (x.running == [] ==> r.sys.waiting == Advanced(x))
  }

  lemma OrdinaryHalf(c: Config, x: Sys, ids: seq<nat>, tokens: seq<Token>, staged: Coverage)
    requires c.Valid() && Ready(c, x, ids) && |tokens| == |ids| && AllInVocabulary(c, tokens) && StagedFits(x.running, staged)
    ensures HalfOk(c, x, Post(Postprocess(c, x, tokens, staged)))
  {
    hide Ready, Postprocess, AllInVocabulary, StagedFits, Idle, Delivers, Advanced, Remains, PostRows, Emitted;
    PostprocessKeeps(c, x, ids, tokens, staged);
    OrdinaryDelivers(c, x, ids, tokens, staged);
    OrdinaryLowers(c, x, ids, tokens, staged);
  }

  lemma NothingStagedFits(q: seq<Row>)
    ensures StagedFits(q, map[])
  {
  }

  lemma BurstHalf(c: Config, x: Sys, ids: seq<nat>, routeCap: nat, certified: bool, results: seq<SpecRow>)
    requires c.Valid() && PureDecode(c, x) && PlanSpeculative(c, x, routeCap, certified).Speculate?
    requires ResultsValid(c, PlanSpeculative(c, x, routeCap, certified).k, results, |x.running|)
    ensures var p := PlanSpeculative(c, x, routeCap, certified);
      var r := CommitSpeculative(c, x.(pool := p.pool, running := p.rows), Prepare(p.lease), p.k, results);
      r.CommitOk? && HalfOk(c, x, Made(r.sys, r.events))
  {
    hide PureDecode, PlanSpeculative, ResultsValid, CommitSpeculative, Leased, Idle, Delivers, Remains, Prepare, CommitsAs;
    PlanKeeps(c, x, routeCap, certified);
    var p := PlanSpeculative(c, x, routeCap, certified);
    var y := x.(pool := p.pool, running := p.rows);
    var lease := Prepare(p.lease);
    assert y == Sys(p.pool, x.waiting, p.rows, x.mid);
    PrepareKeeps(c, x, y, p.lease, p.k);
    CommitKeeps(c, x, y, lease, p.k, true, results);
    SpeculativeDelivers(c, x, y, lease, p.k, true, results);
    SpeculativeLowers(c, x, y, lease, p.k, true, results);
    LeasedNonEmpty(c, x, y, lease, p.k, true);
  }

  lemma SpeculativeLowers(c: Config, base: Sys, y: Sys, lease: Lease, k: nat, prepared: bool, results: seq<SpecRow>)
    requires c.Valid() && Leased(c, base, y, lease, k, prepared) && ResultsValid(c, k, results, |base.running|)
    ensures var r := CommitSpeculative(c, y, lease, k, results);
      r.CommitOk? && Remains(Rows(r.sys)) + |base.running| <= Remains(Rows(base))
  {
    hide CommitSpeculative, Leased, LeaseBase, RowCommits, ResultsValid, Idle, Distinct, PostRows, Keeping, Kept,
         Cut, KeepFits, Surviving, Redrafted, BurstStream, CeilDiv, Remains, Left, Row.Remaining, PureDecode, LeaseOf, Cuts, KeepCounts, Trimmed, BumpedRows, Lasts;
    ResultsCount(c, k, results, |base.running|);
    LeasedParts(c, base, y, lease, k, prepared);
    PureRemaining(c, base);
    CommitKeeps(c, base, y, lease, k, prepared, results);
    SpeculativeRows(c, base, y, lease, k, prepared, results);
    var z := CommitSpeculative(c, y, lease, k, results).sys;
    var cuts := Cuts(c, y.running, results);
    var keep := KeepCounts(c, y.running, lease.rows, cuts);
    var trimmed := Trimmed(base.running, lease.rows, keep);
    TrimmedRows(base.running, lease.rows, keep);
    var post := PostRows(c, Keeping(LeaseBase(base, lease, prepared).pool, Kept(lease.rows, keep)),
                         BumpedRows(trimmed, cuts), Lasts(cuts)).rows;
    forall i | 0 <= i < |trimmed| ensures trimmed[i].Remaining() == base.running[i].Remaining() && Left(trimmed[i]) == Left(base.running[i]) {
      assert trimmed[i] == base.running[i].(table := trimmed[i].table);
      TableRemaining(base.running[i], trimmed[i].table);
    }
    RemainsCommit(c, trimmed, cuts, post);
    RemainsPointwise(trimmed, base.running);
    RedraftedRemains(Surviving(post), z.running);
    RemainsConcat(base.waiting, base.running);
    RemainsConcat(z.waiting, z.running);
  }

  lemma TableRemaining(s: Row, t: seq<nat>)
    ensures s.(table := t).Remaining() == s.Remaining() && Left(s.(table := t)) == Left(s)
  {
  }

  lemma RedraftedRemains(q: seq<Row>, q': seq<Row>)
    requires Redrafted(q, q')
    ensures Remains(q') == Remains(q)
  {
    forall i | 0 <= i < |q| ensures Left(q'[i]) == Left(q[i]) { assert q'[i] == q[i].(draft := q'[i].draft); }
    RemainsPointwise(q', q);
  }

  lemma PureRemaining(c: Config, y: Sys)
    requires c.Valid() && PureDecode(c, y)
    ensures forall i :: 0 <= i < |y.running| ==> y.running[i].Remaining() >= 1
  {
    PureReady(c, y);
    RowsRemaining(c, y, Ids(y.running));
  }

  lemma ShadowHalf(c: Config, x: Sys, tokens: seq<Token>, routeCap: nat, certified: bool)
    requires c.Valid() && PureDecode(c, x) && PlanSpeculative(c, x, routeCap, certified).Speculate?
    requires |tokens| == |x.running| && AllInVocabulary(c, tokens)
    ensures var p := PlanSpeculative(c, x, routeCap, certified);
      && Rollback(p.pool, p.rows, p.lease) == Settled(x.pool, x.running)
      && HalfOk(c, x, Post(Postprocess(c, x, tokens, StagedFor(x.running))))
  {
    PureReady(c, x);
    PureDistinct(c, x);
    hide PureDecode, PlanSpeculative, Postprocess, Leased, Idle, HalfOk, Rollback, Ready, StagedFits, StagedFor, Distinct,
         AllInVocabulary, LeaseOf, AllPlanned;
    PlanKeeps(c, x, routeCap, certified);
    var p := PlanSpeculative(c, x, routeCap, certified);
    var y := x.(pool := p.pool, running := p.rows);
    LeasedParts(c, x, y, p.lease, p.k, false);
    RollbackExact(x.pool, x.running, y.pool, y.running, p.lease);
    StagedForFits(x.running);
    OrdinaryHalf(c, x, Ids(x.running), tokens, StagedFor(x.running));
  }

  lemma HalfToStep(c: Config, y: Sys, r: Stepped)
    requires c.Valid() && Idle(c, y) && (y.waiting != [] || y.running != []) && Schedule(c, y).Ok?
    requires HalfOk(c, Schedule(c, y).value.sys, r)
    ensures StepOk(c, y, r)
  {
    hide Idle, Schedule, Delivers, Lower, Remains, Advanced, Alike, Rows, Cores;
    ScheduleCores(c, y);
    var s := Schedule(c, y).value;
    ScheduledLowers(c, y, r.sys);
    CoresAlike(Rows(y), Rows(s.sys));
    AlikeDelivers(c, Rows(y), Rows(s.sys));
    DeliversThen(c, Rows(y), [], Rows(s.sys), r.events, Rows(r.sys));
    assert [] + r.events == r.events;
  }

  /** The commit half of a speculative step. */
  lemma SpeculativeHalf(c: Config, x: Sys, ch: Choice)
    requires c.Valid() && PureDecode(c, x) && !ch.Plain? && ProperResults(c, x, ch)
    requires |ch.tokens| == |x.running| && AllInVocabulary(c, ch.tokens)
    ensures HalfOk(c, x, SpeculativeStep(c, x, ch))
  {
    PureReady(c, x);
    hide Ready, PureDecode, Postprocess, PlanSpeculative, CommitSpeculative, Rollback, HalfOk, AllInVocabulary,
         ResultsValid, StagedFits, Prepare, StagedFor, Leased, Ids, AllPlanned;
    PlanKeeps(c, x, ch.routeCap, ch.certified);
    var p := PlanSpeculative(c, x, ch.routeCap, ch.certified);
    if p.Bypass? {
      NothingStagedFits(x.running);
      OrdinaryHalf(c, x, Ids(x.running), ch.tokens, map[]);
    } else if ch.Verified? {
      BurstHalf(c, x, Ids(x.running), ch.routeCap, ch.certified, ch.results);
    } else {
      ShadowHalf(c, x, ch.tokens, ch.routeCap, ch.certified);
      assert x.(pool := x.pool, running := x.running) == x;
    }
  }

  /** Every engine step with pending work succeeds, delivers exactly what it commits,
      and lowers the lexicographic measure. */
  lemma StepDrains(c: Config, y: Sys, ch: Choice)
    requires c.Valid() && Idle(c, y) && (y.waiting != [] || y.running != []) && Proper(c, y, ch)
    ensures StepOk(c, y, EngineStep(c, y, ch))
  {
    ScheduledPure(c, y);
    var s := Schedule(c, y).value;
    hide Idle, Schedule, Ready, PureDecode, Postprocess, PlanSpeculative, CommitSpeculative, Rollback, StepOk, HalfOk,
         AllInVocabulary, ProperResults, StagedFits, SpeculativeStep;
    if s.prefill || ch.Plain? {
      NothingStagedFits(s.sys.running);
      OrdinaryHalf(c, s.sys, s.ids, ch.tokens, map[]);
    } else {
      SpeculativeHalf(c, s.sys, ch);
    }
    HalfToStep(c, y, EngineStep(c, y, ch));
  }

  /** The drain loop: whatever the environment chooses step by step, the engine empties,
      and over the whole run every request is delivered up to its first stop. */
  lemma Drains(c: Config, y0: Sys, choose: Sys -> Choice) returns (y: Sys, events: seq<Event>)
    requires c.Valid() && Idle(c, y0) && forall x :: Idle(c, x) ==> Proper(c, x, choose(x))
    ensures y.waiting == [] && y.running == [] && Idle(c, y)
    ensures Delivers(c, Rows(y0), events, [])
  {
    hide Idle, Proper, EngineStep, Delivers, Remains, Uncached, Rows;
    y, events := y0, [];
    AlikeSelf(c, Rows(y0));
    while y.waiting != [] || y.running != []
      invariant Idle(c, y) && Delivers(c, Rows(y0), events, Rows(y))
      decreases Remains(Rows(y)), Uncached(y)
    {
      StepDrains(c, y, choose(y));
      var r := EngineStep(c, y, choose(y));
      DeliversThen(c, Rows(y0), events, Rows(y), r.events, Rows(r.sys));
      y, events := r.sys, events + r.events;
    }
    assert Rows(y) == [] by { EmptyRows(y); }
  }

  lemma EmptyRows(y: Sys)
    requires y.waiting == [] && y.running == []
    ensures Rows(y) == []
  {
  }

  lemma AlikeSelf(c: Config, q: seq<Row>)
    ensures Delivers(c, q, [], q)
  {
    hide Delivers;
    AlikeRows(q, q);
    AlikeDelivers(c, q, q);
  }

  /** What a drained request received: its tokens up to and including its first stop,
      the last event, and only it, marked finished. */
  lemma ExactlyOnce(c: Config, q: seq<Row>, ev: seq<Event>, s: Row)
    requires Delivers(c, q, ev, []) && s in q
    ensures var mine := Mine(s.id, ev);
      && Closed(mine)
      && Stops(c, s.(toks := s.toks + TokensIn(mine)))
      && forall n: nat :: 1 <= n < |mine| ==> !Stops(c, s.(toks := s.toks + TokensIn(mine)[..n]))
  {
    assert Goes(c, s, Mine(s.id, ev), []);
  }

  /** The same without reference to the stopping test. */
  lemma DrainedAnswers(c: Config, q: seq<Row>, ev: seq<Event>)
    requires Delivers(c, q, ev, []) && forall s :: s in q ==> |s.toks| < s.prompt + s.maxTokens
    ensures forall s :: s in q ==> Answer(c, s, Mine(s.id, ev))
  {
    hide Ends, Mine, Answer, Continues;
    forall s | s in q ensures Answer(c, s, Mine(s.id, ev)) {
      assert Goes(c, s, Mine(s.id, ev), []);
      EndsAnswers(c, s, Mine(s.id, ev));
    }
  }
}
