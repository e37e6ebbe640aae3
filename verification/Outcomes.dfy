/** What a commit leaves, row by row, without reference to how it is computed: tokens,
    coverage, table and events of every request in the batch. */
module Outcomes {
  import opened Arith
  import opened Types
  import opened Allocator
  import opened Queues
  import opened Scheduling
  import opened States
  import opened Commit
  import opened Leases
  import opened Speculation
  import opened Burst
  import opened Transactions
  import opened Protocol
  import opened Drain

  /** The request is finished once it got these tokens. */
  predicate Over(c: Config, s: Row, ts: seq<Token>)
    requires ts != []
  {
    (!s.ignoreEos && ts[|ts| - 1] == c.eos) || |s.toks| + |ts| >= s.prompt + s.maxTokens
  }

  /** A row between steps after it got these tokens: all but the last are in the cache. */
  function After(s: Row, ts: seq<Token>, table: seq<nat>, draft: nat): Row
    requires ts != []
  {
    s.(toks := s.toks + ts, cached := |s.toks| + |ts| - 1, sched := 0, table := table, draft := draft)
  }

  // ----- the ordinary commit -----

  /** The running queue after one token per row: finished rows are gone, the others stay
      in order, and the draft coverage is what was staged for them, if anything was. */
  function AfterTokens(c: Config, rows: seq<Row>, tokens: seq<Token>, staged: Coverage): seq<Row>
    requires |rows| == |tokens|
  {
    if rows == [] then []
    else
      var s, t := rows[0], tokens[0];
      var draft := if s.id in staged then staged[s.id] else s.draft;
      (if Over(c, s, [t]) then [] else [After(s, [t], s.table, draft)]) + AfterTokens(c, rows[1..], tokens[1..], staged)
  }

  /** The waiting queue afterwards: a scheduled chunk is in the cache now. */
  function AfterChunk(q: seq<Row>): seq<Row> {
    seq(|q|, i requires 0 <= i < |q| => q[i].(cached := q[i].cached + q[i].sched, sched := 0))
  }

  lemma OverStops(c: Config, s: Row, t: Token)
    requires Complete(s)
    ensures Stops(c, s.(toks := s.toks + [t], cached := |s.toks|, sched := 0)) <==> Over(c, s, [t])
  {
  }

  lemma CoveredCons(s: Row, q: seq<Row>, staged: Coverage)
    ensures Covered([s] + q, staged) == [if s.id in staged then s.(draft := staged[s.id]) else s] + Covered(q, staged)
  {
  }

  lemma {:induction false} AfterTokensIs(c: Config, rows: seq<Row>, tokens: seq<Token>, rows': seq<Row>, staged: Coverage)
    requires |rows| == |tokens| == |rows'| && AllComplete(rows)
    requires forall i :: 0 <= i < |rows| ==> Committed(c, rows[i], tokens[i], rows'[i])
    ensures Covered(Surviving(rows'), staged) == AfterTokens(c, rows, tokens, staged)
    decreases |rows|
  {
    hide Complete, Stops, Over, Committed, Covered, Surviving;
    if rows == [] {
      NoneCovered(staged);
    } else {
      var s, t, q := rows[0], tokens[0], Surviving(rows'[1..]);
      assert Complete(s);
      forall i | 0 <= i < |rows| - 1
        ensures Complete(rows[1..][i]) && Committed(c, rows[1..][i], tokens[1..][i], rows'[1..][i])
      {
        assert Complete(rows[i + 1]) && Committed(c, rows[i + 1], tokens[i + 1], rows'[i + 1]);
      }
      AfterTokensIs(c, rows[1..], tokens[1..], rows'[1..], staged);
      assert rows' == [rows'[0]] + rows'[1..];
      SurvivingCons(rows'[0], rows'[1..]);
      CommittedIs(c, s, t, rows'[0]);
      CoveredCons(rows'[0], q, staged);
      if Over(c, s, [t]) { assert [] + AfterTokens(c, rows[1..], tokens[1..], staged) == Covered(q, staged); }
    }
  }

  lemma NoneCovered(staged: Coverage)
    ensures Surviving([]) == [] && Covered([], staged) == []
  {
  }

  lemma CommittedIs(c: Config, s: Row, t: Token, s': Row)
    requires Complete(s) && Committed(c, s, t, s')
    ensures s'.status == Finished <==> Over(c, s, [t])
    ensures !Over(c, s, [t]) ==> s' == After(s, [t], s.table, s.draft)
  {
    OverStops(c, s, t);
    hide Stops, Over;
  }

  lemma ChunkAdvances(c: Config, p: Pool, y: Sys, tokens: seq<Token>)
    requires c.Valid() && WaitShape(y) && |tokens| == |ChunkRows(y)|
    ensures PostRows(c, p, ChunkRows(y), tokens).rows + y.waiting[|ChunkRows(y)|..] == AfterChunk(y.waiting)
  {
    hide HashBlocks, Emit;
    var chunk := ChunkRows(y);
    forall i | |chunk| <= i < |y.waiting| ensures y.waiting[i].sched == 0 {
      if y.mid.None? {
        assert Quiet(y.waiting[i]);
      } else if i > 0 {
        assert Quiet(y.waiting[1..][i - 1]);
      }
    }
    if chunk != [] {
      ChunkIsPartial(y);
      var s := y.waiting[0];
      assert PostRow(c, p, s, tokens[0]).row == s.(cached := s.cached + s.sched, sched := 0);
      assert PostRows(c, p, chunk, tokens).rows == [PostRow(c, p, s, tokens[0]).row];
    }
  }

  /** The ordinary commit of a scheduled step, exactly: every running row gets its token,
      is reported, and leaves if it is over; coverage, staged draft coverage included, is
      recorded; nothing else changes. It is refused exactly for a wrong number of tokens or
      one out of range. */
  lemma CommitExact(c: Config, y: Sys, ids: seq<nat>, tokens: seq<Token>, staged: Coverage)
    requires c.Valid() && Ready(c, y, ids) && StagedFits(y.running, staged)
    ensures var r := Postprocess(c, y, tokens, staged);
      && (r.PostOk? <==>
            |tokens| == |ids| && forall i :: 0 <= i < |tokens| ==> 0 <= tokens[i] && (c.vocab.Some? ==> tokens[i] < c.vocab.value))
      && (r.PostOk? ==>
            var n := |y.running|;
            && n <= |tokens| && |r.events| == n
            && r.sys.running == AfterTokens(c, y.running, tokens[..n], staged)
            && r.sys.waiting == AfterChunk(y.waiting) && r.sys.mid == y.mid
            && forall i :: 0 <= i < n ==> r.events[i] == Event(y.running[i].id, tokens[i], Over(c, y.running[i], [tokens[i]])))
  {
    ReadyParts(c, y, ids);
    CommitRefuses(c, y, tokens, staged);
    if |tokens| == |ids| && AllInVocabulary(c, tokens) {
      hide Ready, PostRows, Postprocess, AllComplete, Committed, Surviving, Covered, StagedFits, Idle, WaitShape, InVocabulary,
           AfterTokens, AfterChunk, Over, Held, ChunkRows;
      PostprocessKeeps(c, y, ids, tokens, staged);
      PostprocessSplits(c, y, tokens, staged);
      var n := |y.running|;
      var out := PostRows(c, y.pool, y.running, tokens[..n]);
      AfterTokensIs(c, y.running, tokens[..n], out.rows, staged);
      ChunkAdvances(c, out.pool, y, tokens[n..]);
      forall i | 0 <= i < n ensures out.rows[i].status == Finished <==> Over(c, y.running[i], [tokens[i]]) {
        CompleteAt(y.running, i);
        CommittedIs(c, y.running[i], tokens[i], out.rows[i]);
      }
    }
  }

  lemma CompleteAt(q: seq<Row>, i: nat)
    requires AllComplete(q) && i < |q|
    ensures Complete(q[i])
  {
  }

  lemma CommitRefuses(c: Config, y: Sys, tokens: seq<Token>, staged: Coverage)
    requires c.Valid()
    ensures Postprocess(c, y, tokens, staged).PostOk? <==> |tokens| == |y.running| + |ChunkRows(y)| && AllInVocabulary(c, tokens)
    ensures AllInVocabulary(c, tokens) <==>
      forall i :: 0 <= i < |tokens| ==> 0 <= tokens[i] && (c.vocab.Some? ==> tokens[i] < c.vocab.value)
  {
    PostRowsLength(c, y.pool, y.running + ChunkRows(y), tokens);
    hide PostRows, Surviving, Covered, ChunkRows;
  }

  // ----- the shadow cycle -----

  lemma {:induction false} StagedDrafts(c: Config, rows: seq<Row>, tokens: seq<Token>, staged: Coverage)
    requires |rows| == |tokens| && forall i :: 0 <= i < |rows| ==> rows[i].id in staged && staged[rows[i].id] == |rows[i].toks|
    ensures forall s :: s in AfterTokens(c, rows, tokens, staged) ==> s.draft == |s.toks| - 1
    decreases |rows|
  {
    hide Over;
    if rows != [] {
      assert forall i :: 0 <= i < |rows| - 1 ==> rows[1..][i] == rows[i + 1];
      StagedDrafts(c, rows[1..], tokens[1..], staged);
    }
  }

  /** The commit of a shadow cycle, whose proposals were discarded. */
  lemma ShadowCommit(c: Config, x: Sys, tokens: seq<Token>)
    requires c.Valid() && PureDecode(c, x) && |tokens| == |x.running| && AllInVocabulary(c, tokens)
    ensures var r := Postprocess(c, x, tokens, StagedFor(x.running));
      && r.PostOk? && r.sys.running == AfterTokens(c, x.running, tokens, StagedFor(x.running))
      && forall s :: s in r.sys.running ==> s.draft == |s.toks| - 1
  {
    hide Ready, PureDecode, Postprocess, AllInVocabulary, AfterTokens, StagedFor, StagedFits, Distinct, AllPlanned;
    PureReady(c, x);
    PureDistinct(c, x);
    StagedForFits(x.running);
    CommitExact(c, x, Ids(x.running), tokens, StagedFor(x.running));
    CommitRefuses(c, x, tokens, StagedFor(x.running));
    assert tokens[..|x.running|] == tokens;
    forall i | 0 <= i < |x.running|
      ensures x.running[i].id in StagedFor(x.running) && StagedFor(x.running)[x.running[i].id] == |x.running[i].toks|
    {
      StagedForIs(x.running, i);
    }
    StagedDrafts(c, x.running, tokens, StagedFor(x.running));
  }

  /** A step that ran a shadow cycle commits the ordinary tokens, and leaves every request
      of the batch with the whole of its cached prefix in the draft cache too. */
  lemma ShadowCovers(c: Config, y: Sys, ch: Choice)
    requires c.Valid() && Idle(c, y) && y.running != [] && Proper(c, y, ch) && ch.Shadowed?
    requires Schedule(c, y).Ok? && !Schedule(c, y).value.prefill
    requires PlanSpeculative(c, Schedule(c, y).value.sys, ch.routeCap, ch.certified).Speculate?
    ensures var x := Schedule(c, y).value.sys;
      var r := EngineStep(c, y, ch);
      && r.Made? && |ch.tokens| == |x.running|
      && r.sys.running == AfterTokens(c, x.running, ch.tokens, StagedFor(x.running))
      && forall s :: s in r.sys.running ==> s.draft == |s.toks| - 1
  {
    hide Idle, Schedule, Ready, PureDecode, Postprocess, PlanSpeculative, Rollback, AllInVocabulary, AfterTokens, StagedFor,
         HalfOk, AllPlanned;
    ScheduledPure(c, y);
    var x := Schedule(c, y).value.sys;
    PureReady(c, x);
    ShadowHalf(c, x, ch.tokens, ch.routeCap, ch.certified);
    ShadowCommit(c, x, ch.tokens);
    assert x.(pool := x.pool, running := x.running) == x;
  }

  // ----- the burst commit -----

  /** A row after its cut burst: it keeps the leased blocks its new coverage fills, and has
      draft coverage up to its last verified proposal. */
  function AfterOne(c: Config, s: Row, leased: LeaseRow, ts: seq<Token>, k: nat): Row
    requires c.Valid() && ts != []
  {
    var n := CeilDiv(|s.toks| + |ts| - 1, c.blockSize) - |s.table|;
    var table := if 0 <= n <= |leased.appended| then s.table + leased.appended[..n] else s.table;
    var draft := if |ts| <= k then |s.toks| + |ts| - 1 else |s.toks| + k - 1;
    After(s, ts, table, if draft >= 0 then draft else 0)
  }

  /** The running queue after a burst: finished rows are gone, the others stay in order. */
  function AfterBurst(c: Config, rows: seq<Row>, leased: seq<LeaseRow>, cuts: seq<seq<Token>>, k: nat): seq<Row>
    requires c.Valid() && |rows| == |leased| == |cuts| && forall i :: 0 <= i < |cuts| ==> cuts[i] != []
  {
    if rows == [] then []
    else
      (if Over(c, rows[0], cuts[0]) then [] else [AfterOne(c, rows[0], leased[0], cuts[0], k)]) +
      AfterBurst(c, rows[1..], leased[1..], cuts[1..], k)
  }

  lemma BurstRowIs(c: Config, p: Pool, s: Row, ts: seq<Token>, k: nat)
    requires c.Valid() && ts != [] && AboutToCommit(s)
    ensures var r := BurstRow(c, p, s, ts, k).row;
      && (r.status == Finished <==> Over(c, s, ts))
      && (!Over(c, s, ts) ==>
            r == After(s, ts, s.table, if |ts| <= k then |s.toks| + |ts| - 1 else |s.toks| + k - 1))
  {
    hide HashBlocks, BurstEvents;
    assert (s.toks + ts)[|s.toks + ts| - 1] == ts[|ts| - 1];
  }

  /** The first row of a burst commit, on the prefix of the lease it keeps. */
  lemma FirstAfter(c: Config, p: Pool, s: Row, leased: LeaseRow, n: int, ts: seq<Token>, k: nat)
    requires c.Valid() && ts != [] && AboutToCommit(s) && KeepsPrefix(c, s, ts, leased.appended, n)
    ensures var r := BurstRow(c, p, s.(table := s.table + leased.appended[..n]), ts, k).row;
      && (r.status == Finished <==> Over(c, s, ts))
      && (!Over(c, s, ts) ==> r == AfterOne(c, s, leased, ts, k))
  {
    hide BurstRow, Over, CeilDiv;
    var s' := s.(table := s.table + leased.appended[..n]);
    BurstRowIs(c, p, s', ts, k);
    OverSame(c, s, s', ts);
  }

  lemma TrimmedFirst(rows: seq<Row>, leased: seq<LeaseRow>, keep: seq<int>)
    requires |rows| == |leased| && KeepFits(leased, keep) && rows != [] && leased[0].before == rows[0].table
    ensures var t := Trimmed(rows, leased, keep);
      && |t| == |rows| && 0 <= keep[0] <= |leased[0].appended| && KeepFits(leased[1..], keep[1..])
      && t[0] == rows[0].(table := rows[0].table + leased[0].appended[..keep[0]])
      && t[1..] == Trimmed(rows[1..], leased[1..], keep[1..])
  {
    KeepFitsTail(leased, keep);
  }

  lemma BurstRowsFirst(c: Config, p: Pool, rows: seq<Row>, cuts: seq<seq<Token>>, k: nat)
    requires c.Valid() && |rows| == |cuts| && rows != [] && cuts[0] != []
    ensures var r := BurstRow(c, p, rows[0], cuts[0], k);
      BurstRows(c, p, rows, cuts, k).rows == [r.row] + BurstRows(c, r.pool, rows[1..], cuts[1..], k).rows
  {
    hide BurstRow;
  }

  lemma {:induction false} AfterBurstIs(c: Config, p: Pool, rows: seq<Row>, leased: seq<LeaseRow>, keep: seq<int>,
                                        cuts: seq<seq<Token>>, k: nat)
    requires c.Valid() && |rows| == |leased| == |cuts| && KeepFits(leased, keep)
    requires forall i :: 0 <= i < |cuts| ==> cuts[i] != []
    requires forall i :: 0 <= i < |rows| ==> AboutToCommit(rows[i]) && KeepsPrefix(c, rows[i], cuts[i], leased[i].appended, keep[i])
    requires forall i :: 0 <= i < |rows| ==> leased[i].before == rows[i].table
    ensures Surviving(BurstRows(c, p, Trimmed(rows, leased, keep), cuts, k).rows) == AfterBurst(c, rows, leased, cuts, k)
    decreases |rows|
  {
    hide BurstRow, BurstRows, Over, Surviving, Trimmed, AboutToCommit, KeepsPrefix, AfterOne;
    var rows' := Trimmed(rows, leased, keep);
    if rows == [] {
      NoneCovered(map[]);
      NoBurst(c, p, rows', cuts, k);
    } else {
      TrimmedFirst(rows, leased, keep);
      assert AboutToCommit(rows[0]) && KeepsPrefix(c, rows[0], cuts[0], leased[0].appended, keep[0]);
      var r := BurstRow(c, p, rows'[0], cuts[0], k);
      FirstAfter(c, p, rows[0], leased[0], keep[0], cuts[0], k);
      forall i | 0 <= i < |rows| - 1
        ensures AboutToCommit(rows[1..][i]) && KeepsPrefix(c, rows[1..][i], cuts[1..][i], leased[1..][i].appended, keep[1..][i])
      {
        assert AboutToCommit(rows[i + 1]) && KeepsPrefix(c, rows[i + 1], cuts[i + 1], leased[i + 1].appended, keep[i + 1]);
      }
      AfterBurstIs(c, r.pool, rows[1..], leased[1..], keep[1..], cuts[1..], k);
      BurstRowsFirst(c, p, rows', cuts, k);
      SurvivingCons(r.row, BurstRows(c, r.pool, rows'[1..], cuts[1..], k).rows);
    }
  }

  lemma NoBurst(c: Config, p: Pool, rows: seq<Row>, cuts: seq<seq<Token>>, k: nat)
    requires c.Valid() && rows == []
    ensures BurstRows(c, p, rows, cuts, k).rows == []
  {
  }

  lemma OverSame(c: Config, s: Row, s': Row, ts: seq<Token>)
    requires ts != [] && s' == s.(table := s'.table)
    ensures Over(c, s', ts) == Over(c, s, ts)
  {
  }

  /** The burst commit of any live lease, exactly: the queue it leaves is that of the rows
      with their bursts cut at the first stop. */
  lemma BurstExact(c: Config, base: Sys, y: Sys, lease: Lease, k: nat, prepared: bool, results: seq<SpecRow>)
    requires c.Valid() && Leased(c, base, y, lease, k, prepared) && ResultsValid(c, k, results, |base.running|)
    ensures |y.running| == |base.running| == |lease.rows|
    ensures var cuts := Cuts(c, y.running, results);
      var r := CommitSpeculative(c, y, lease, k, results);
      && (forall i :: 0 <= i < |cuts| ==> cuts[i] != [] && CutIs(c, y.running[i], results[i].committed, cuts[i]))
      && r.CommitOk? && r.sys.waiting == base.waiting && r.sys.mid == base.mid
      && r.sys.running == AfterBurst(c, base.running, lease.rows, cuts, k)
  {
    CommitUnfolds(c, base, y, lease, k, prepared, results);
    CommitCuts(c, base, y, lease, k, prepared, results);
    LeasedParts(c, base, y, lease, k, prepared);
    hide CommitSpeculative, BurstRows, Surviving, Cuts, KeepCounts, CutIs, KeepsPrefix, AfterBurst, Keeping, Kept, LeaseOf, ResultsValid;
    var cuts := Cuts(c, y.running, results);
    var keep := KeepCounts(c, y.running, lease.rows, cuts);
    forall i | 0 <= i < |base.running| ensures AboutToCommit(base.running[i]) && lease.rows[i].before == base.running[i].table {
      RunningFields(c, base, y, lease, k, prepared, i);
      PurePlanned(c, base);
      assert Planned(base.running[i]);
    }
    hide Leased, PureDecode;
    AfterBurstIs(c, Keeping(LeaseBase(base, lease, prepared).pool, Kept(lease.rows, keep)), base.running, lease.rows, keep, cuts, k);
  }

  // ----- the engine step -----

  /** The burst commit of a fresh plan, prepared and verified. */
  lemma VerifiedCommit(c: Config, x: Sys, routeCap: nat, certified: bool, results: seq<SpecRow>)
    requires c.Valid() && PureDecode(c, x) && PlanSpeculative(c, x, routeCap, certified).Speculate?
    requires ResultsValid(c, PlanSpeculative(c, x, routeCap, certified).k, results, |x.running|)
    ensures var p := PlanSpeculative(c, x, routeCap, certified);
      && |p.rows| == |x.running| == |p.lease.rows| == |results|
      && var cuts := Cuts(c, p.rows, results);
         var r := CommitSpeculative(c, x.(pool := p.pool, running := p.rows), Prepare(p.lease), p.k, results);
         && (forall i :: 0 <= i < |cuts| ==> cuts[i] != [] && CutIs(c, p.rows[i], results[i].committed, cuts[i]))
         && r.CommitOk? && r.sys.waiting == x.waiting && r.sys.mid == x.mid
         && r.sys.running == AfterBurst(c, x.running, p.lease.rows, cuts, p.k)
  {
    hide PureDecode, PlanSpeculative, ResultsValid, CommitSpeculative, Leased, AfterBurst, Cuts, CutIs;
    PlanKeeps(c, x, routeCap, certified);
    var p := PlanSpeculative(c, x, routeCap, certified);
    var y := x.(pool := p.pool, running := p.rows);
    assert y == Sys(p.pool, x.waiting, p.rows, x.mid);
    PrepareKeeps(c, x, y, p.lease, p.k);
    ResultsCount(c, p.k, results, |x.running|);
    BurstExact(c, x, y, Prepare(p.lease), p.k, true, results);
  }

  /** An ordinary commit, with nothing staged. */
  lemma OrdinaryCommit(c: Config, x: Sys, ids: seq<nat>, tokens: seq<Token>)
    requires c.Valid() && Ready(c, x, ids) && |tokens| == |ids| && AllInVocabulary(c, tokens)
    ensures var r := Postprocess(c, x, tokens, map[]);
      && r.PostOk? && |x.running| <= |tokens|
      && r.sys.running == AfterTokens(c, x.running, tokens[..|x.running|], map[]) && r.sys.waiting == AfterChunk(x.waiting)
  {
    hide Ready, Postprocess, AllInVocabulary, AfterTokens, AfterChunk, StagedFits;
    NothingStagedFits(x.running);
    CommitRefuses(c, x, tokens, map[]);
    CommitExact(c, x, ids, tokens, map[]);
  }

  /** One engine step, exactly, from its schedule x: the burst of a batch that speculates
      and is verified, the ordinary tokens with full draft coverage of a batch that
      speculates and is discarded, and otherwise just the ordinary tokens. */
  lemma StepExact(c: Config, y: Sys, ch: Choice)
    requires c.Valid() && Idle(c, y) && (y.waiting != [] || y.running != []) && Proper(c, y, ch)
    ensures Schedule(c, y).Ok? && EngineStep(c, y, ch).Made?
    ensures var s := Schedule(c, y).value;
      var x, z := s.sys, EngineStep(c, y, ch).sys;
      var plain := s.prefill || ch.Plain? || !PlanSpeculative(c, x, ch.routeCap, ch.certified).Speculate?;
      && |x.running| <= |ch.tokens|
      && (plain ==>
            && z.running == AfterTokens(c, x.running, ch.tokens[..|x.running|], map[])
            && z.waiting == AfterChunk(x.waiting))
      && (!plain && ch.Verified? ==>
            var p := PlanSpeculative(c, x, ch.routeCap, ch.certified);
            && |p.rows| == |x.running| == |p.lease.rows| == |ch.results|
            && var cuts := Cuts(c, p.rows, ch.results);
               && (forall i :: 0 <= i < |cuts| ==> cuts[i] != [] && CutIs(c, p.rows[i], ch.results[i].committed, cuts[i]))
               && z.running == AfterBurst(c, x.running, p.lease.rows, cuts, p.k) && z.waiting == x.waiting)
      && (!plain && ch.Shadowed? ==>
            z.running == AfterTokens(c, x.running, ch.tokens[..|x.running|], StagedFor(x.running)))
  {
    hide Idle, Schedule, Ready, PureDecode, Postprocess, PlanSpeculative, CommitSpeculative, Rollback, AllInVocabulary, AfterTokens,
         AfterChunk, AfterBurst, StagedFor, HalfOk, AllPlanned, Cuts, CutIs, ResultsValid, Prepare, Proper;
    ScheduledPure(c, y);
    var s := Schedule(c, y).value;
    ProperTokens(c, y, ch);
    OrdinaryCommit(c, s.sys, s.ids, ch.tokens);
    if !s.prefill && !ch.Plain? {
      PureReady(c, s.sys);
      CycleExact(c, s.sys, ch);
    }
  }

  lemma ProperTokens(c: Config, y: Sys, ch: Choice)
    requires c.Valid() && Schedule(c, y).Ok? && Proper(c, y, ch)
    ensures var s := Schedule(c, y).value;
      |ch.tokens| == |s.ids| && AllInVocabulary(c, ch.tokens) && ProperResults(c, s.sys, ch)
  {
  }

  /** The speculative half of a step. */
  lemma CycleExact(c: Config, x: Sys, ch: Choice)
    requires c.Valid() && PureDecode(c, x) && !ch.Plain? && ProperResults(c, x, ch)
    requires |ch.tokens| == |x.running| && AllInVocabulary(c, ch.tokens)
    ensures var r := SpeculativeStep(c, x, ch);
      var p := PlanSpeculative(c, x, ch.routeCap, ch.certified);
      && (!p.Speculate? ==> r == Post(Postprocess(c, x, ch.tokens, map[])))
      && (p.Speculate? && ch.Verified? ==>
            && r.Made? && |p.rows| == |x.running| == |p.lease.rows| == |ch.results|
            && var cuts := Cuts(c, p.rows, ch.results);
               && (forall i :: 0 <= i < |cuts| ==> cuts[i] != [] && CutIs(c, p.rows[i], ch.results[i].committed, cuts[i]))
               && r.sys.running == AfterBurst(c, x.running, p.lease.rows, cuts, p.k) && r.sys.waiting == x.waiting)
      && (p.Speculate? && ch.Shadowed? ==>
            r.Made? && r.sys.running == AfterTokens(c, x.running, ch.tokens[..|x.running|], StagedFor(x.running)))
  {
    hide PureDecode, Postprocess, PlanSpeculative, CommitSpeculative, Rollback, AllInVocabulary, AfterTokens, AfterBurst,
         StagedFor, HalfOk, Cuts, CutIs, ResultsValid, Prepare, Leased;
    PlanKeeps(c, x, ch.routeCap, ch.certified);
    if PlanSpeculative(c, x, ch.routeCap, ch.certified).Speculate? {
      if ch.Verified? {
        VerifiedCommit(c, x, ch.routeCap, ch.certified, ch.results);
      } else {
        ShadowHalf(c, x, ch.tokens, ch.routeCap, ch.certified);
        ShadowCommit(c, x, ch.tokens);
        assert x.(pool := x.pool, running := x.running) == x;
        assert ch.tokens[..|x.running|] == ch.tokens;
      }
    }
  }
}
