/** The burst of a one-row batch against the ordinary engine steps it replaces, down to
    the pool. */
module OneRow {
  import opened Arith
  import opened Types
  import opened Pools
  import opened Allocator
  import opened Queues
  import opened Evolution
  import opened Scheduling
  import opened States
  import opened Progress
  import opened Commit
  import opened Leases
  import opened Speculation
  import opened Burst
  import opened Transactions
  import opened Delivery
  import opened Protocol
  import opened Drain
  import opened Simulation

  // ----- forgetting free blocks commutes with a commit -----

  lemma EvictedPublish(q: Pool, rel: seq<nat>, b: nat, h: int, toks: seq<Token>)
    requires b !in rel
    ensures Publish(Evicted(q, rel), b, h, toks) == Evicted(Publish(q, b, h, toks), rel)
  {
    var l, r := Publish(Evicted(q, rel), b, h, toks), Evicted(Publish(q, b, h, toks), rel);
    if b < |q.blocks| {
      assert l.blocks == r.blocks;
      assert l.index == r.index;
    }
  }

  lemma {:induction false} EvictedHashFrom(c: Config, q: Pool, rel: seq<nat>, s: Row, i: nat, end: nat, h: int)
    requires forall j :: 0 <= j < |s.table| ==> s.table[j] !in rel
    ensures HashFrom(c, Evicted(q, rel), s, i, end, h) == Evicted(HashFrom(c, q, s, i, end, h), rel)
    decreases end - i
  {
    if i < end && i < |s.table| {
      var blk := BlockTokens(s.toks, i, c.blockSize);
      var d := c.hash(h, blk);
      hide Publish, Evicted, BlockTokens;
      EvictedPublish(q, rel, s.table[i], d, blk);
      EvictedHashFrom(c, Publish(q, s.table[i], d, blk), rel, s, i + 1, end, d);
    }
  }

  lemma EvictedSeed(q: Pool, rel: seq<nat>, s: Row, i: nat)
    requires forall j :: 0 <= j < |s.table| ==> s.table[j] !in rel
    ensures SeedHash(Evicted(q, rel), s, i) == SeedHash(q, s, i)
  {
  }

  lemma EvictedHashBlocks(c: Config, q: Pool, rel: seq<nat>, s: Row)
    requires c.Valid() && forall j :: 0 <= j < |s.table| ==> s.table[j] !in rel
    ensures HashBlocks(c, Evicted(q, rel), s) == Evicted(HashBlocks(c, q, s), rel)
  {
    hide HashBlocks, HashFrom, Full, SeedHash, Evicted;
    HashBlocksUnfolds(c, q, s);
    HashBlocksUnfolds(c, Evicted(q, rel), s);
    EvictedSeed(q, rel, s, Full(c, s.cached));
    EvictedHashFrom(c, q, rel, s, Full(c, s.cached), Full(c, s.cached + s.sched), SeedHash(q, s, Full(c, s.cached)));
  }

  lemma EvictedUnref(q: Pool, rel: seq<nat>, b: nat)
    requires b !in rel
    ensures Unref(Evicted(q, rel), b) == Evicted(Unref(q, b), rel)
  {
    var l, r := Unref(Evicted(q, rel), b), Evicted(Unref(q, b), rel);
    if b < |q.blocks| { assert l.blocks == r.blocks; }
  }

  lemma {:induction false} EvictedRelease(q: Pool, rel: seq<nat>, t: seq<nat>)
    requires forall j :: 0 <= j < |t| ==> t[j] !in rel
    ensures Release(Evicted(q, rel), t) == Evicted(Release(q, t), rel)
    decreases |t|
  {
    if t != [] {
      hide Unref, Evicted;
      EvictedUnref(q, rel, t[|t| - 1]);
      EvictedRelease(Unref(q, t[|t| - 1]), rel, t[..|t| - 1]);
    }
  }

  lemma EvictedPost(c: Config, q: Pool, rel: seq<nat>, s: Row, t: Token)
    requires c.Valid() && forall j :: 0 <= j < |s.table| ==> s.table[j] !in rel
    ensures var r := PostRow(c, q, s, t); PostRow(c, Evicted(q, rel), s, t) == Posted(Evicted(r.pool, rel), r.row, r.events)
  {
    EvictedHashBlocks(c, q, rel, s);
    hide HashBlocks, Evicted, Release, Stops;
    EvictedRelease(HashBlocks(c, q, s), rel, s.table);
  }

  lemma {:induction false} MinusConcat(a: seq<nat>, b: seq<nat>, gone: set<nat>)
    ensures Minus(a + b, gone) == Minus(a, gone) + Minus(b, gone)
  {
    if a == [] {
      assert a + b == b;
    } else {
      assert (a + b)[1..] == a[1..] + b;
      MinusConcat(a[1..], b, gone);
    }
  }

  lemma {:induction false} MinusAll(q: seq<nat>, gone: set<nat>)
    requires forall y :: y in q ==> y in gone
    ensures Minus(q, gone) == []
  {
    if q != [] {
      assert q[0] in q;
      MinusAll(q[1..], gone);
    }
  }

  lemma {:induction false} MinusApart(q: seq<nat>, gone: set<nat>)
    requires forall y :: y in q ==> y !in gone
    ensures Minus(q, gone) == q
  {
    if q != [] {
      assert q[0] in q;
      MinusApart(q[1..], gone);
    }
  }

  lemma PartsApart(q: seq<nat>, n: nat, i: nat)
    requires NoDup(q) && n <= i < |q|
    ensures q[i] !in q[..n]
  {
  }

  lemma MinusPrefix(q: seq<nat>, n: nat)
    requires NoDup(q) && n <= |q|
    ensures Minus(q, ToSet(q[..n])) == q[n..]
  {
    var a, b := q[..n], q[n..];
    assert q == a + b;
    MinusConcat(a, b, ToSet(a));
    MinusAll(a, ToSet(a));
    forall y | y in b ensures y !in a {
      var i :| 0 <= i < |b| && b[i] == y;
      PartsApart(q, n, n + i);
    }
    MinusApart(b, ToSet(a));
  }

  /** Keeping the first n blocks of a prepared lease of N is taking those n and
      forgetting what the other N - n cached. */
  lemma KeepingIsGrow(p: Pool, t: seq<nat>, m: multiset<nat>, n: nat, total: nat)
    requires Wf(p) && Owned(p, m) && n <= total <= |p.free|
    ensures Keeping(Evicted(p, p.free[..total]), p.free[..n]) == Evicted(Grow(p, t, n).0, p.free[n..total])
  {
    hide Grow, Owned, IndexAgrees, Without, ToSet, NoDup, Keeping, Evicted;
    FreeInRange(p);
    GrowMeta(p, t, n, m);
    GrowShape(p, t, n);
    PartsJoin(p.free, n, total);
    KeepingCloses(p, Grow(p, t, n).0, p.free[..n], p.free[n..total], p.free[n..]);
  }

  lemma PartsJoin(q: seq<nat>, n: nat, total: nat)
    requires n <= total <= |q|
    ensures q == q[..n] + q[n..] && q[n..total] <= q[n..] && q[..total] == q[..n] + q[n..total]
  {
  }

  /** The same, from the closed form of taking the blocks `kept` off the free list. */
  lemma KeepingCloses(p: Pool, g: Pool, kept: seq<nat>, rel: seq<nat>, rest: seq<nat>)
    requires NoDup(p.free) && p.free == kept + rest && rel <= rest
    requires |g.blocks| == |p.blocks| && g.free == rest && g.used == p.used + ToSet(kept) && g.index == Without(p.index, ToSet(kept))
    requires forall b: nat :: b < |p.blocks| ==> g.blocks[b] == if b in ToSet(kept) then FRESH else p.blocks[b]
    ensures Keeping(Evicted(p, kept + rel), kept) == Evicted(g, rel)
  {
    assert p.free[..|kept|] == kept && p.free[|kept|..] == rest;
    MinusPrefix(p.free, |kept|);
    KeepingIndex(p, kept, rel);
    forall b | b in rel ensures b !in kept {
      var j :| 0 <= j < |rel| && rel[j] == b;
      PartsApart(p.free, |kept|, |kept| + j);
    }
    hide NoDup, Minus, Without;
    KeepingBlocks(p, g, kept, rel);
  }

  lemma KeepingBlocks(p: Pool, g: Pool, kept: seq<nat>, rel: seq<nat>)
    requires |g.blocks| == |p.blocks| && forall b :: b in rel ==> b !in kept
    requires forall b: nat :: b < |p.blocks| ==> g.blocks[b] == if b in ToSet(kept) then FRESH else p.blocks[b]
    ensures Keeping(Evicted(p, kept + rel), kept).blocks == Evicted(g, rel).blocks
  {
    hide Minus, Without;
  }

  lemma SplitSets(a: seq<nat>, b: seq<nat>)
    ensures ToSet(a + b) == ToSet(a) + ToSet(b)
  {
  }

  lemma KeepingIndex(p: Pool, kept: seq<nat>, rel: seq<nat>)
    ensures Without(Without(p.index, ToSet(kept + rel)), ToSet(kept)) == Without(Without(p.index, ToSet(kept)), ToSet(rel))
  {
    SplitSets(kept, rel);
    WithoutTwice(p.index, ToSet(kept + rel), ToSet(kept));
    WithoutTwice(p.index, ToSet(kept), ToSet(rel));
    hide Without, ToSet;
    assert ToSet(kept + rel) + ToSet(kept) == ToSet(kept) + ToSet(rel);
  }

  // ----- ordinary steps of a single row -----

  /** Ordinary engine steps, one token each, until the row is gone. */
  function Steps(c: Config, y: Sys, ts: seq<Token>): Stepped
    requires c.Valid()
    decreases |ts|
  {
    if ts == [] || y.running == [] then Made(y, [])
    else
      match Schedule(c, y)
      case Err(_) => Raised
      case Ok(s) =>
        match Postprocess(c, s.sys, [ts[0]], map[])
        case PostErr(_) => Raised
        case PostOk(z, ev) =>
          match Steps(c, z, ts[1..])
          case Raised => Raised
          case Made(z', more) => Made(z', ev + more)
  }

  lemma OneSchedule(c: Config, y: Sys)
    requires c.Valid() && Idle(c, y) && y.waiting == [] && |y.running| == 1
    ensures var (p, s) := MayAppend(c, y.pool, y.running[0].(sched := 1, prefill := false));
      && y.mid == None
      && Schedule(c, y) == Ok(Scheduled(Sys(p, [], [s], None), [s.id], false))
      && Ready(c, Sys(p, [], [s], None), [s.id])
  {
    hide Held;
    var s0 := y.running[0];
    assert y.running == [s0];
    assert y.waiting + y.running + [] == [] + [] + [s0];
    assert Common(c, y.(running := []), [s0]);
    AloneHasRoom(c, y.(running := []), s0);
    ScheduleProgress(c, y);
    OneDecode(c, y);
    hide DecodePhase, MayAppend, Ready, Evolves, Idle, Common;
    var (p, s) := MayAppend(c, y.pool, s0.(sched := 1, prefill := false));
    assert [s] + [] == [s];
    assert Ids([s]) == [s.id];
    assert FillPhase(c, Sys(p, [], [s], None), [s.id], 1) == Ok(Filled(Sys(p, [], [s], None), [s.id]));
  }

  lemma OneDecode(c: Config, y: Sys)
    requires c.Valid() && y.waiting == [] && |y.running| == 1 && y.mid == None && CanAppend(c, y.pool, y.running[0])
    ensures var (p, s) := MayAppend(c, y.pool, y.running[0].(sched := 1, prefill := false));
      DecodePhase(c, y, []) == Ok(Decoded(Sys(p, [], [], None), [s]))
  {
    hide MayAppend, CanAppend;
    var y0 := y.(running := []);
    assert y.running[1..] == [];
    assert MakeRoom(c, y0, y.running[0]) == Ok(Room(y0, true));
    var (p, s) := MayAppend(c, y.pool, y.running[0].(sched := 1, prefill := false));
    assert [] + [s] == [s];
    assert DecodePhase(c, Sys(p, [], [], None), [s]) == Ok(Decoded(Sys(p, [], [], None), [s]));
  }

  lemma OnePost(c: Config, p: Pool, s: Row, t: Token)
    requires c.Valid() && InVocabulary(c, t)
    ensures var r := PostRow(c, p, s, t);
      Postprocess(c, Sys(p, [], [s], None), [t], map[]) == PostOk(Sys(r.pool, [], Surviving([r.row]), None), r.events)
  {
    hide PostRow, Surviving, InVocabulary;
    var y := Sys(p, [], [s], None);
    var r := PostRow(c, p, s, t);
    assert [s][1..] == [] && [t][1..] == [];
    assert PostRows(c, p, [s], [t]) == PostedAll(r.pool, [r.row], r.events) by {
      assert PostRows(c, r.pool, [], []) == PostedAll(r.pool, [], []);
      assert [r.row] + [] == [r.row] && r.events + [] == r.events;
    }
    assert y.running + ChunkRows(y) == [s];
    assert [r.row][..1] == [r.row] && [r.row][1..] == [];
    assert Covered(Surviving([r.row]), map[]) == Surviving([r.row]);
    assert InVocabulary(c, [t][0]);
  }

  ghost predicate Vocabulary(c: Config, ts: seq<Token>) {
    forall i :: 0 <= i < |ts| ==> InVocabulary(c, ts[i])
  }

  lemma OneIdle(c: Config, p: Pool, s: Row, t: Token)
    requires c.Valid() && Ready(c, Sys(p, [], [s], None), [s.id]) && InVocabulary(c, t)
    ensures var r := PostRow(c, p, s, t); Idle(c, Sys(r.pool, [], Surviving([r.row]), None))
  {
    hide Ready, Idle, PostRow, Postprocess, InVocabulary, StagedFits, PostRows;
    NothingStagedFits([s]);
    PostprocessKeeps(c, Sys(p, [], [s], None), [s.id], [t], map[]);
    OnePost(c, p, s, t);
  }

  lemma SurvivingOne(s: Row)
    ensures Surviving([s]) == if s.status == Finished then [] else [s]
  {
    SurvivingCons(s, []);
    assert [s] + [] == [s];
  }

  /** The engine steps of a lone row are its ordinary run. */
  lemma {:induction false} StepsAreRun(c: Config, y: Sys, ts: seq<Token>)
    requires c.Valid() && Idle(c, y) && y.waiting == [] && |y.running| == 1 && ts != [] && Vocabulary(c, ts)
    ensures var (p, s) := MayAppend(c, y.pool, y.running[0].(sched := 1, prefill := false));
      var r := OrdinaryRun(c, p, s, ts);
      Steps(c, y, ts) == Made(Sys(r.pool, [], Surviving([r.row]), None), r.events)
    decreases |ts|
  {
    hide Idle, Ready, Schedule, Postprocess, MayAppend, PostRow, InVocabulary, Surviving;
    OneSchedule(c, y);
    var (p, s) := MayAppend(c, y.pool, y.running[0].(sched := 1, prefill := false));
    assert InVocabulary(c, ts[0]);
    OnePost(c, p, s, ts[0]);
    OneIdle(c, p, s, ts[0]);
    var r := PostRow(c, p, s, ts[0]);
    var z := Sys(r.pool, [], Surviving([r.row]), None);
    SurvivingOne(r.row);
    assert r.events + [] == r.events;
    if |ts| > 1 && r.row.status != Finished {
      assert Vocabulary(c, ts[1..]);
      StepsAreRun(c, z, ts[1..]);
    }
  }

  // ----- the theorem -----

  /** A lease over one row takes the head of the free list. */
  lemma OneLease(c: Config, base: Sys, y: Sys, lease: Lease, k: nat, prepared: bool)
    requires c.Valid() && Leased(c, base, y, lease, k, prepared) && |base.running| == 1
    ensures |y.running| == |lease.rows| == 1 && lease.rows[0].appended == lease.order
    ensures |lease.order| <= |base.pool.free| && lease.order == base.pool.free[..|lease.order|]
    ensures y.running[0].toks == base.running[0].toks && lease.rows[0].before == base.running[0].table
    ensures forall n: int :: 0 <= n <= |lease.order| ==> KeepFits(lease.rows, [n]) && Kept(lease.rows, [n]) == lease.order[..n]
  {
    RunningFields(c, base, y, lease, k, prepared, 0);
    OneOrder(c, base, y, lease, k, prepared);
    hide Leased, PureDecode, SuffixFor, Took, KeepFits, Kept, Flatten;
    assert lease.rows == [lease.rows[0]];
    forall n: int | 0 <= n <= |lease.order| ensures KeepFits(lease.rows, [n]) && Kept(lease.rows, [n]) == lease.order[..n] {
      OneKept(lease.rows[0], n);
    }
  }

  lemma OneOrder(c: Config, base: Sys, y: Sys, lease: Lease, k: nat, prepared: bool)
    requires c.Valid() && Leased(c, base, y, lease, k, prepared) && |base.running| == |lease.rows| == 1
    ensures lease.rows[0].appended == lease.order
    ensures |lease.order| <= |base.pool.free| && lease.order == base.pool.free[..|lease.order|]
  {
    hide PureDecode, SuffixFor, Took, Tables, Evicted;
    assert lease.rows == [lease.rows[0]] && lease.rows[1..] == [];
    assert Flatten(lease.rows) == lease.rows[0].appended + [];
  }

  lemma OneKept(r: LeaseRow, n: int)
    requires 0 <= n <= |r.appended|
    ensures KeepFits([r], [n]) && Kept([r], [n]) == r.appended[..n]
  {
    assert [r][1..] == [] && [n][1..] == [];
    assert r.appended[..n] + [] == r.appended[..n];
  }

  /** What the one row commits and keeps. */
  lemma OneCut(c: Config, base: Sys, y: Sys, lease: Lease, k: nat, result: SpecRow)
    requires c.Valid() && Leased(c, base, y, lease, k, true) && |base.running| == 1 && ResultsValid(c, k, [result], 1)
    ensures |y.running| == |lease.rows| == 1
    ensures var s := base.running[0];
      var ts := Cut(c, y.running[0], result.committed);
      && Cuts(c, y.running, [result]) == [ts] && ts != [] && RunsThrough(c, s, ts, |ts| - 1) && Planned(s)
      && KeepCounts(c, y.running, lease.rows, [ts]) == [More(c, s, |ts| - 1)]
      && 0 <= More(c, s, |ts| - 1) <= |lease.rows[0].appended|
  {
    hide Leased, CutIs, KeepsPrefix, Cut, ValidResult, CeilDiv, SuffixFor, Stops, RunsThrough, Planned, Fits, ResultsValid,
         More, Cuts, KeepCounts;
    LeasedRow(c, base, y, lease, k, true, 0);
    var ts := Cut(c, y.running[0], result.committed);
    OneResult(c, k, result);
    CommitCut(c, base, y, lease, k, true, result, 0);
    OneKeeps(c, base.running[0], y.running[0], lease.rows[0], result.committed, ts);
    OneShapes(c, base.running[0], y, lease, result, ts);
  }

  lemma OneResult(c: Config, k: nat, result: SpecRow)
    requires ResultsValid(c, k, [result], 1)
    ensures ValidResult(c, k, result)
  {
    hide ValidResult;
    assert [result][0] == result;
  }

  lemma OneKeeps(c: Config, s: Row, s': Row, r: LeaseRow, burst: seq<Token>, ts: seq<Token>)
    requires c.Valid() && CutIs(c, s', burst, ts) && Same(s, s') && s'.toks == s.toks && r.before == s.table && ts != []
    requires KeepsPrefix(c, s, ts, r.appended, CeilDiv(CachedAfter(s', ts), c.blockSize) - |r.before|)
    ensures RunsThrough(c, s, ts, |ts| - 1) && 0 <= More(c, s, |ts| - 1) <= |r.appended|
  {
    hide CutIs, KeepsPrefix, CeilDiv, RunsThrough;
    CutRuns(c, s', burst, ts);
    RunsSame(c, s', s, ts, |ts| - 1);
    KeepsWithin(c, s, ts, r.appended, More(c, s, |ts| - 1));
  }

  lemma OneShapes(c: Config, s: Row, y: Sys, lease: Lease, result: SpecRow, ts: seq<Token>)
    requires c.Valid() && |y.running| == |lease.rows| == 1 && ts == Cut(c, y.running[0], result.committed) && ts != []
    requires y.running[0].toks == s.toks && lease.rows[0].before == s.table
    ensures Cuts(c, y.running, [result]) == [ts]
    ensures KeepCounts(c, y.running, lease.rows, [ts]) == [More(c, s, |ts| - 1)]
  {
    hide CeilDiv, Cut;
  }

  lemma CutRuns(c: Config, s: Row, burst: seq<Token>, ts: seq<Token>)
    requires CutIs(c, s, burst, ts)
    ensures RunsThrough(c, s, ts, |ts| - 1)
  {
  }

  /** Committing a burst on the kept part of a prepared lease, against one commit of
      the same tokens on a table grown from the free list. */
  lemma OneRowBurst(c: Config, p: Pool, s: Row, ts: seq<Token>, a: seq<Row>, n: nat, total: nat, k: nat)
    requires c.Valid() && RunReady(c, p, s, ts, a) && n == More(c, s, |ts| - 1) && n <= total <= |p.free|
    ensures var r := BurstRow(c, Keeping(Evicted(p, p.free[..total]), p.free[..n]), s.(table := s.table + p.free[..n]), ts, k);
      var o := OneCommit(c, p, s, ts);
      && r.pool == Evicted(o.pool, p.free[n..total]) && r.events == o.events
      && r.row == (if o.row.status == Finished then o.row else o.row.(draft := DraftAfter(s, ts, k)))
  {
    hide RunReady, Grow, Keeping, Evicted, BurstRow, PostRow, More, OneCommit, Bumped, DraftAfter, BurstEvents;
    var g, s1 := Grow(p, s.table, n).0, s.(table := s.table + p.free[..n]);
    RunReadyParts(c, p, s, ts, a);
    KeptIsGrown(c, p, s, ts, a, n, total);
    BurstRowIsPost(c, Evicted(g, p.free[n..total]), s1, ts, k);
    CommitApart(c, p, s, ts, a, n, total, g);
    OneCommitIs(c, p, s, ts, n);
    SameDraft(s, s1, ts, k);
  }

  lemma OneCommitIs(c: Config, p: Pool, s: Row, ts: seq<Token>, n: nat)
    requires c.Valid() && ts != [] && n == More(c, s, |ts| - 1) && n <= |p.free|
    ensures var r := PostRow(c, Grow(p, s.table, n).0, Bumped(s.(table := s.table + p.free[..n]), ts), Last(ts));
      OneCommit(c, p, s, ts) == Posted(r.pool, r.row, BurstEvents(s.id, ts, r.row.status == Finished))
  {
    hide Grow, PostRow, Bumped, More;
  }

  lemma SameDraft(s: Row, s': Row, ts: seq<Token>, k: nat)
    requires s'.toks == s.toks
    ensures DraftAfter(s', ts, k) == DraftAfter(s, ts, k)
  {
  }

  lemma KeptIsGrown(c: Config, p: Pool, s: Row, ts: seq<Token>, a: seq<Row>, n: nat, total: nat)
    requires c.Valid() && RunReady(c, p, s, ts, a) && n <= total <= |p.free|
    ensures Keeping(Evicted(p, p.free[..total]), p.free[..n]) == Evicted(Grow(p, s.table, n).0, p.free[n..total])
    ensures s.status == Running && s.cached + 1 == |s.toks|
  {
    RunReadyParts(c, p, s, ts, a);
    hide RunReady, Grow, Keeping, Evicted, Wf, Owned;
    KeepingIsGrow(p, s.table, Owners(a) + multiset(s.table), n, total);
  }

  lemma CommitApart(c: Config, p: Pool, s: Row, ts: seq<Token>, a: seq<Row>, n: nat, total: nat, g: Pool)
    requires c.Valid() && RunReady(c, p, s, ts, a) && n <= total <= |p.free|
    ensures var b := Bumped(s.(table := s.table + p.free[..n]), ts);
      var r := PostRow(c, g, b, Last(ts));
      PostRow(c, Evicted(g, p.free[n..total]), b, Last(ts)) == Posted(Evicted(r.pool, p.free[n..total]), r.row, r.events)
  {
    RunReadyParts(c, p, s, ts, a);
    BurstApart(p, s.table, n, total);
    hide RunReady, Evicted, PostRow, Wf, Owned;
    EvictedPost(c, g, p.free[n..total], Bumped(s.(table := s.table + p.free[..n]), ts), Last(ts));
  }

  lemma RunReadyParts(c: Config, p: Pool, s: Row, ts: seq<Token>, a: seq<Row>)
    requires c.Valid() && RunReady(c, p, s, ts, a)
    ensures ts != [] && Wf(p) && NoDup(p.free) && Owned(p, Owners(a) + multiset(s.table))
    ensures s.status == Running && s.cached + 1 == |s.toks|
    ensures forall j :: 0 <= j < |s.table| ==> s.table[j] !in p.free
  {
    ReadyAhead(c, p, s, ts, a);
  }

  lemma BurstApart(p: Pool, table: seq<nat>, n: nat, total: nat)
    requires NoDup(p.free) && n <= total <= |p.free| && forall j :: 0 <= j < |table| ==> table[j] !in p.free
    ensures forall j :: 0 <= j < |table + p.free[..n]| ==> (table + p.free[..n])[j] !in p.free[n..total]
  {
    var t, rel := table + p.free[..n], p.free[n..total];
    forall b | b in rel ensures b in p.free && b !in p.free[..n] {
      var i :| 0 <= i < |rel| && rel[i] == b;
      PartsApart(p.free, n, n + i);
    }
    forall j | 0 <= j < |t| ensures t[j] !in rel {
      if j < |table| {
        assert t[j] == table[j];
      } else {
        assert t[j] == p.free[..n][j - |table|];
      }
    }
  }

  /** The commit of a one-row burst, in terms of one commit of the kept blocks. */
  lemma OneBurst(c: Config, base: Sys, y: Sys, lease: Lease, k: nat, result: SpecRow)
    requires c.Valid() && Leased(c, base, y, lease, k, true) && |base.running| == 1 && ResultsValid(c, k, [result], 1)
    ensures |y.running| == 1
    ensures var s := base.running[0];
      var ts := Cut(c, y.running[0], result.committed);
      && ts != [] && RunReady(c, base.pool, s, ts, base.waiting)
      && var n := More(c, s, |ts| - 1);
         var o := OneCommit(c, base.pool, s, ts);
         var b := CommitSpeculative(c, y, lease, k, [result]);
         && 0 <= n <= |lease.order|
         && b.CommitOk? && b.events == o.events && b.sys.waiting == base.waiting && b.sys.mid == base.mid
         && b.sys.pool == Evicted(o.pool, lease.order[n..])
         && |b.sys.running| == |Surviving([o.row])| && Redrafted(Surviving([o.row]), b.sys.running)
  {
    hide Leased, PureDecode, LeaseOf, Cut, ResultsValid, CommitSpeculative, RunsThrough, Held, Grow, Keeping, Evicted,
         BurstRow, PostRow, Surviving, Redrafted, CeilDiv, RunReady, OneCommit, KeepFits, Kept, More, Planned, Cuts, KeepCounts,
         DraftAfter;
    OneCut(c, base, y, lease, k, result);
    OneLease(c, base, y, lease, k, true);
    OneHeld(c, base, y, lease, k);
    var s := base.running[0];
    var ts := Cut(c, y.running[0], result.committed);
    var n := More(c, s, |ts| - 1);
    RunReadyIs(c, base.pool, s, ts, base.waiting);
    assert base.running == [s];
    OneUnfolds(c, base, y, lease, k, result, s, ts, n);
    OneRowBurst(c, base.pool, s, ts, base.waiting, n, |lease.order|, k);
    OnePrefix(base.pool.free, lease.order, n);
    OneRedrafted(c, base.pool, s, ts, base.waiting, k);
  }

  lemma OnePrefix(free: seq<nat>, order: seq<nat>, n: nat)
    requires n <= |order| <= |free| && order == free[..|order|]
    ensures order[..n] == free[..n] && order[n..] == free[n..|order|]
  {
  }

  /** The commit of a one-row burst is the commit of its row. */
  lemma OneUnfolds(c: Config, base: Sys, y: Sys, lease: Lease, k: nat, result: SpecRow, s: Row, ts: seq<Token>, n: int)
    requires c.Valid() && Leased(c, base, y, lease, k, true) && base.running == [s] && ResultsValid(c, k, [result], 1)
    requires |y.running| == |lease.rows| == 1 && ts != [] && 0 <= n <= |lease.order|
    requires Cuts(c, y.running, [result]) == [ts] && KeepCounts(c, y.running, lease.rows, [ts]) == [n]
    requires KeepFits(lease.rows, [n]) && Kept(lease.rows, [n]) == lease.order[..n] && lease.rows[0].appended == lease.order
    ensures var r := BurstRow(c, Keeping(Evicted(base.pool, lease.order), lease.order[..n]),
                              s.(table := s.table + lease.order[..n]), ts, k);
      CommitSpeculative(c, y, lease, k, [result]) ==
        CommitOk(Sys(r.pool, base.waiting, Surviving([r.row]), base.mid), r.events)
  {
    hide Leased, ResultsValid, CommitSpeculative, Keeping, Evicted, BurstRow, Surviving, KeepFits, Kept, BurstRows, Cuts, KeepCounts;
    CommitUnfolds(c, base, y, lease, k, true, [result]);
    var s1 := s.(table := s.table + lease.order[..n]);
    assert Trimmed(base.running, lease.rows, [n]) == [s1];
    BurstRowsOne(c, Keeping(Evicted(base.pool, lease.order), lease.order[..n]), s1, ts, k);
  }

  lemma OneHeld(c: Config, base: Sys, y: Sys, lease: Lease, k: nat)
    requires c.Valid() && Leased(c, base, y, lease, k, true) && |base.running| == 1
    ensures Held(c, base.pool, [base.running[0]] + base.waiting)
  {
    LeasedParts(c, base, y, lease, k, true);
    hide Leased, Held;
    PureHeld(c, base);
    assert base.running == [base.running[0]];
  }

  lemma BurstRowsOne(c: Config, q: Pool, s: Row, ts: seq<Token>, k: nat)
    requires c.Valid() && ts != []
    ensures var r := BurstRow(c, q, s, ts, k); BurstRows(c, q, [s], [ts], k) == PostedAll(r.pool, [r.row], r.events)
  {
    hide BurstRow;
    var r := BurstRow(c, q, s, ts, k);
    assert [s][1..] == [] && [ts][1..] == [];
    assert BurstRows(c, r.pool, [], [], k) == PostedAll(r.pool, [], []);
    assert [r.row] + [] == [r.row] && r.events + [] == r.events;
  }

  lemma OneRedrafted(c: Config, p: Pool, s: Row, ts: seq<Token>, a: seq<Row>, k: nat)
    requires c.Valid() && RunReady(c, p, s, ts, a)
    ensures var o := OneCommit(c, p, s, ts).row;
      var r := if o.status == Finished then o else o.(draft := DraftAfter(s, ts, k));
      |Surviving([r])| == |Surviving([o])| && Redrafted(Surviving([o]), Surviving([r]))
  {
    var o := OneCommit(c, p, s, ts).row;
    SurvivingOne(o);
    SurvivingOne(o.(draft := DraftAfter(s, ts, k)));
    OneCovers(c, p, s, ts, a);
    hide Surviving, OneCommit, RunReady;
  }

  lemma OneCovers(c: Config, p: Pool, s: Row, ts: seq<Token>, a: seq<Row>)
    requires c.Valid() && RunReady(c, p, s, ts, a)
    ensures var o := OneCommit(c, p, s, ts).row; o.status == Finished || o.cached == |s.toks| + |ts| - 1
  {
    var n := More(c, s, |ts| - 1);
    hide Held, RunsThrough, Grow, PostRow, CeilDiv, Stops;
    PostRowShape(c, Grow(p, s.table, n).0, Bumped(s.(table := s.table + p.free[..n]), ts), Last(ts));
  }

  // ----- the released blocks are free in the ordinary run -----

  lemma {:induction false} ReleaseAppends(p: Pool, table: seq<nat>)
    ensures p.free <= Release(p, table).free
    decreases |table|
  {
    if table != [] { ReleaseAppends(Unref(p, table[|table| - 1]), table[..|table| - 1]); }
  }

  lemma {:induction false} HashFromFree(c: Config, p: Pool, s: Row, i: nat, end: nat, h: int)
    ensures HashFrom(c, p, s, i, end, h).free == p.free
    decreases end - i
  {
    if i < end && i < |s.table| {
      var blk := BlockTokens(s.toks, i, c.blockSize);
      HashFromFree(c, Publish(p, s.table[i], c.hash(h, blk), blk), s, i + 1, end, c.hash(h, blk));
    }
  }

  lemma PostAppends(c: Config, p: Pool, s: Row, t: Token)
    requires c.Valid()
    ensures p.free <= PostRow(c, p, s, t).pool.free
  {
    hide HashFrom, Release, Stops;
    HashFromFree(c, p, s, s.cached / c.blockSize, (s.cached + s.sched) / c.blockSize, SeedHash(p, s, s.cached / c.blockSize));
    ReleaseAppends(HashBlocks(c, p, s), s.table);
  }

  lemma GrowLeaves(p: Pool, table: seq<nat>, n: nat)
    requires FreeList(p) && n <= |p.free|
    ensures Grow(p, table, n).0.free == p.free[n..]
  {
    hide Grow;
    forall i | 0 <= i < n ensures p.free[i] < |p.blocks| { assert p.free[i] in p.free; }
    GrowShape(p, table, n);
  }

  /** After the ordinary run its unused blocks still head the free list. */
  lemma UnusedStayFree(c: Config, p: Pool, s: Row, ts: seq<Token>, a: seq<Row>, n: nat)
    requires c.Valid() && RunReady(c, p, s, ts, a) && ts != [] && n == More(c, s, |ts| - 1) && n <= |p.free|
    ensures p.free[n..] <= OneCommit(c, p, s, ts).pool.free
  {
    hide RunReady, Ahead, PostRow, Grow, More, FreeList, BurstEvents, Bumped;
    ReadyAhead(c, p, s, ts, a);
    GrowLeaves(p, s.table, n);
    PostAppends(c, Grow(p, s.table, n).0, Bumped(s.(table := s.table + p.free[..n]), ts), Last(ts));
  }

  /** A burst simulates ordinary decoding, commit for commit, whoever is waiting. Commit a
      verified burst for a lone decoder, or commit its cut token by token, appending the
      next block each time it is needed: both report the same events and leave the same
      request, up to its draft coverage, and the same pool, except that the released lease
      blocks no longer remember what they cached; and those blocks are the head of the
      free list of the ordinary run. */
  lemma BurstIsRun(c: Config, base: Sys, y: Sys, lease: Lease, k: nat, result: SpecRow)
    requires c.Valid() && Leased(c, base, y, lease, k, true) && |base.running| == 1 && ResultsValid(c, k, [result], 1)
    ensures |y.running| == 1 && Cut(c, y.running[0], result.committed) != []
    ensures var ts := Cut(c, y.running[0], result.committed);
      var o := OrdinaryRun(c, base.pool, base.running[0], ts);
      var b := CommitSpeculative(c, y, lease, k, [result]);
      var n := More(c, base.running[0], |ts| - 1);
      && b.CommitOk? && b.events == o.events && b.sys.waiting == base.waiting && b.sys.mid == base.mid
      && |b.sys.running| == |Surviving([o.row])| && Redrafted(Surviving([o.row]), b.sys.running)
      && 0 <= n <= |lease.order| && b.sys.pool == Evicted(o.pool, lease.order[n..]) && lease.order[n..] <= o.pool.free
  {
    hide Leased, ResultsValid, CommitSpeculative, RunReady, OneCommit, OrdinaryRun, Evicted, Surviving, More, Cut, Redrafted,
         Kept, KeepFits;
    OneBurst(c, base, y, lease, k, result);
    OneLease(c, base, y, lease, k, true);
    var s, ts := base.running[0], Cut(c, y.running[0], result.committed);
    RunIsOneCommit(c, base.pool, s, ts, base.waiting);
    UnusedStayFree(c, base.pool, s, ts, base.waiting, More(c, s, |ts| - 1));
    OnePrefix(base.pool.free, lease.order, More(c, s, |ts| - 1));
  }

  /** A burst simulates ordinary decoding, step for step. Commit a verified burst for the only
      request of the engine, or take one whole engine step per committed token: both report
      the same events and leave the same request, up to its draft coverage, and the same
      pool, except that the released lease blocks, free in both, no longer remember what
      they cached. */
  lemma BurstSimulates(c: Config, y: Sys, routeCap: nat, certified: bool, result: SpecRow)
    requires c.Valid() && Idle(c, y) && y.waiting == [] && |y.running| == 1 && Schedule(c, y).Ok?
    requires PlanSpeculative(c, Schedule(c, y).value.sys, routeCap, certified).Speculate?
    requires ResultsValid(c, PlanSpeculative(c, Schedule(c, y).value.sys, routeCap, certified).k, [result], 1)
    ensures var x := Schedule(c, y).value.sys;
      var plan := PlanSpeculative(c, x, routeCap, certified);
      var b := CommitSpeculative(c, x.(pool := plan.pool, running := plan.rows), Prepare(plan.lease), plan.k, [result]);
      && |x.running| == |plan.rows| == 1 && b.CommitOk?
      && var ts := Cut(c, plan.rows[0], result.committed);
         var o := Steps(c, y, ts);
         && o.Made? && b.events == o.events
         && b.sys.waiting == o.sys.waiting == [] && b.sys.mid == o.sys.mid
         && |b.sys.running| == |o.sys.running| && Redrafted(o.sys.running, b.sys.running)
         && var n := More(c, x.running[0], |ts| - 1);
            && 0 <= n <= |plan.lease.order| && b.sys.pool == Evicted(o.sys.pool, plan.lease.order[n..])
            && plan.lease.order[n..] <= o.sys.pool.free
  {
    hide Idle, Ready, Schedule, PlanSpeculative, ResultsValid, CommitSpeculative, MayAppend, Leased, Cut, Prepare, PureDecode,
         RunReady, OneCommit, OrdinaryRun, Steps, Evicted, Surviving, More, AllPlanned, Evolves;
    OneSchedule(c, y);
    ScheduleProgress(c, y);
    var x := Schedule(c, y).value.sys;
    DecodeIsPure(c, x, Schedule(c, y).value.ids);
    PlanKeeps(c, x, routeCap, certified);
    var plan := PlanSpeculative(c, x, routeCap, certified);
    var y1 := x.(pool := plan.pool, running := plan.rows);
    assert y1 == Sys(plan.pool, x.waiting, plan.rows, x.mid);
    PrepareKeeps(c, x, y1, plan.lease, plan.k);
    PrepareOrder(plan.lease);
    BurstIsRun(c, x, y1, Prepare(plan.lease), plan.k, result);
    OneVocabulary(c, y1, plan.k, result);
    StepsAreRun(c, y, Cut(c, plan.rows[0], result.committed));
  }

  lemma OneVocabulary(c: Config, y: Sys, k: nat, result: SpecRow)
    requires ResultsValid(c, k, [result], 1) && |y.running| == 1
    ensures Vocabulary(c, Cut(c, y.running[0], result.committed))
  {
    assert ValidResult(c, k, [result][0]);
    hide InVocabulary, Cut;
    CutPrefix(c, y.running[0], result.committed);
  }

  lemma {:induction false} CutPrefix(c: Config, s: Row, burst: seq<Token>)
    ensures Cut(c, s, burst) <= burst
    decreases |burst|
  {
    if burst != [] { CutPrefix(c, s.(toks := s.toks + [burst[0]]), burst[1..]); }
  }
}
