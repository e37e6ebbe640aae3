/** A speculative burst simulates ordinary decoding. Row by row the commit of a burst
    is the fold of single-token commits; for a one-row batch it leaves the very pool
    that as many ordinary engine steps leave, except that the released lease blocks
    no longer remember what they cached. */
module Simulation {
  import opened Arith
  import opened Types
  import opened Pools
  import opened Allocator
  import opened Queues
  import opened Evolution
  import opened Scheduling
  import opened States
  import opened Progress
  import opened Commit
  import opened Leases
  import opened Speculation
  import opened Burst
  import opened Transactions
  import opened Delivery

  // ----- the logical row -----

  /** One ordinary decode commit of a row, without its blocks. */
  function NextRow(c: Config, s: Row, t: Token): Row {
    var grown := s.(toks := s.toks + [t], cached := |s.toks|, sched := 0);
    if Stops(c, grown) then Retired(grown) else grown
  }

  /** Successive decode commits; a retired row takes no further token. */
  function Fold(c: Config, s: Row, ts: seq<Token>): Row
    decreases |ts|
  {
    if ts == [] || s.status == Finished then s else Fold(c, NextRow(c, s, ts[0]), ts[1..])
  }

  /** Committing a cut burst is folding its tokens one by one. */
  lemma {:induction false} FoldIsCommit(c: Config, s: Row, ts: seq<Token>, s': Row)
    requires ts != [] && s.status != Finished && RunsThrough(c, s, ts, |ts| - 1)
    requires Committed(c, Bumped(s, ts), Last(ts), s')
    ensures s' == Fold(c, s, ts)
    decreases |ts|
  {
    var t, rest := ts[0], ts[1..];
    if rest == [] {
      assert ts == [t] && s.toks + ts[..0] == s.toks;
      assert Fold(c, NextRow(c, s, t), []) == NextRow(c, s, t);
      StopsSame(c, s, Bumped(s, ts), s.toks + [t]);
    } else {
      var s1 := NextRow(c, s, t);
      assert ts[..1] == [t];
      StopsSame(c, s, s.(cached := |s.toks|, sched := 0), s.toks + [t]);
      assert !Stops(c, s.(toks := s.toks + ts[..1]));
      assert s1 == s.(toks := s.toks + [t], cached := |s.toks|, sched := 0);
      hide Stops;
      forall k: nat | 1 <= k <= |rest| - 1 ensures !Stops(c, s1.(toks := s1.toks + rest[..k])) {
        assert s1.toks + rest[..k] == s.toks + ts[..k + 1];
        StopsSame(c, s, s1, s1.toks + rest[..k]);
      }
      assert s.toks + ts[..|ts| - 1] == s1.toks + rest[..|rest| - 1];
      BumpedNext(c, s, ts, s1, s');
      FoldIsCommit(c, s1, rest, s');
    }
  }

  lemma BumpedNext(c: Config, s: Row, ts: seq<Token>, s1: Row, s': Row)
    requires |ts| >= 2 && s1 == s.(toks := s.toks + [ts[0]], cached := |s.toks|, sched := 0)
    requires s.toks + ts[..|ts| - 1] == s1.toks + ts[1..][..|ts| - 2]
    requires Committed(c, Bumped(s, ts), Last(ts), s')
    ensures Committed(c, Bumped(s1, ts[1..]), Last(ts[1..]), s')
  {
    hide Stops;
    var a, b := Bumped(s, ts), Bumped(s1, ts[1..]);
    assert a.toks == b.toks;
    assert a.(toks := a.toks + [Last(ts)], cached := |a.toks|, sched := 0)
      == b.(toks := b.toks + [Last(ts)], cached := |b.toks|, sched := 0);
  }

  /** Every row of a burst commit is the fold of its cut, on the blocks it kept, up to
      the draft coverage; the queue and the events are those of the folds. */
  lemma BurstIsFold(c: Config, base: Sys, y: Sys, lease: Lease, k: nat, prepared: bool, results: seq<SpecRow>)
    requires c.Valid() && Leased(c, base, y, lease, k, prepared) && ResultsValid(c, k, results, |base.running|)
    ensures |y.running| == |base.running| == |lease.rows|
    ensures var cuts := Cuts(c, y.running, results);
      var keep := KeepCounts(c, y.running, lease.rows, cuts);
      && KeepFits(lease.rows, keep)
      && var trimmed := Trimmed(base.running, lease.rows, keep);
         var folded := Folds(c, trimmed, cuts);
         var r := CommitSpeculative(c, y, lease, k, results);
         && r.CommitOk? && r.events == BurstStream(trimmed, cuts, folded)
         && |r.sys.running| == |Surviving(folded)| && Redrafted(Surviving(folded), r.sys.running)
  {
    hide CommitSpeculative, Leased, LeaseBase, RowCommits, ResultsValid, Idle, Distinct, PostRows, Keeping, Kept,
         Cut, KeepFits, Surviving, Redrafted, BurstStream, CeilDiv, PureDecode, LeaseOf, Fold, Planned, AllPlanned, Cuts, KeepCounts, Trimmed, BumpedRows, Lasts;
    ResultsCount(c, k, results, |base.running|);
    LeasedParts(c, base, y, lease, k, prepared);
    PureReady0(c, base);
    CommitKeeps(c, base, y, lease, k, prepared, results);
    SpeculativeRows(c, base, y, lease, k, prepared, results);
    var cuts := Cuts(c, y.running, results);
    var keep := KeepCounts(c, y.running, lease.rows, cuts);
    var trimmed := Trimmed(base.running, lease.rows, keep);
    TrimmedRows(base.running, lease.rows, keep);
    var q := Keeping(LeaseBase(base, lease, prepared).pool, Kept(lease.rows, keep));
    var post := PostRows(c, q, BumpedRows(trimmed, cuts), Lasts(cuts)).rows;
    forall i | 0 <= i < |trimmed| ensures trimmed[i].status == Running && trimmed[i].cached + 1 == |trimmed[i].toks| {
      assert trimmed[i] == base.running[i].(table := trimmed[i].table);
      PlannedIs(base.running[i]);
    }
    PostAreFolds(c, q, trimmed, cuts);
    assert post == Folds(c, trimmed, cuts);
  }

  function Folds(c: Config, rows: seq<Row>, cuts: seq<seq<Token>>): (r: seq<Row>)
    requires |rows| == |cuts|
    ensures |r| == |rows|
  {
    seq(|rows|, i requires 0 <= i < |rows| => Fold(c, rows[i], cuts[i]))
  }

  lemma PostAreFolds(c: Config, q: Pool, rows: seq<Row>, cuts: seq<seq<Token>>)
    requires c.Valid() && |rows| == |cuts| && forall i :: 0 <= i < |cuts| ==> cuts[i] != []
    requires forall i :: 0 <= i < |rows| ==> rows[i].status == Running && rows[i].cached + 1 == |rows[i].toks|
    requires var post := PostRows(c, q, BumpedRows(rows, cuts), Lasts(cuts)).rows;
      |post| == |rows| && forall i :: 0 <= i < |rows| ==> RowCommits(c, rows[i], cuts[i], post[i])
    ensures PostRows(c, q, BumpedRows(rows, cuts), Lasts(cuts)).rows == Folds(c, rows, cuts)
  {
    BumpedComplete(rows, cuts);
    hide AllComplete, PostRows, Fold, Committed, RowCommits;
    PostRowsShape(c, q, BumpedRows(rows, cuts), Lasts(cuts));
    var post := PostRows(c, q, BumpedRows(rows, cuts), Lasts(cuts)).rows;
    forall i | 0 <= i < |rows| ensures post[i] == Fold(c, rows[i], cuts[i]) {
      assert Committed(c, BumpedRows(rows, cuts)[i], Lasts(cuts)[i], post[i]);
      CommitsRun(c, rows[i], cuts[i], post[i]);
      FoldIsCommit(c, rows[i], cuts[i], post[i]);
    }
  }

  lemma CommitsRun(c: Config, s: Row, ts: seq<Token>, s': Row)
    requires RowCommits(c, s, ts, s')
    ensures RunsThrough(c, s, ts, |ts| - 1)
  {
  }

  // ----- taking blocks commutes with publishing others -----

  lemma TakePublish(p: Pool, b: nat, h: int, toks: seq<Token>)
    requires p.free != [] && p.free[0] < |p.blocks| && b != p.free[0]
    ensures Take(Publish(p, b, h, toks)) == Publish(Take(p), b, h, toks)
  {
    if b < |p.blocks| {
      var x := p.free[0];
      var l, r := Take(Publish(p, b, h, toks)), Publish(Take(p), b, h, toks);
      assert l.blocks == r.blocks;
      assert l.index == r.index;
    }
  }

  lemma {:induction false} GrowPublish(p: Pool, t: seq<nat>, n: nat, b: nat, h: int, toks: seq<Token>)
    requires n <= |p.free| && b !in p.free && forall i :: 0 <= i < |p.free| ==> p.free[i] < |p.blocks|
    ensures Grow(Publish(p, b, h, toks), t, n).0 == Publish(Grow(p, t, n).0, b, h, toks)
    decreases n
  {
    if n > 0 {
      TakePublish(p, b, h, toks);
      TakeFree(p);
      hide Take, Publish;
      PublishFree(p, b, h, toks);
      GrowPublish(Take(p), t + [p.free[0]], n - 1, b, h, toks);
    }
  }

  lemma TakeFree(p: Pool)
    requires p.free != [] && p.free[0] < |p.blocks|
    ensures Take(p).free == p.free[1..] && |Take(p).blocks| == |p.blocks|
  {
  }

  lemma PublishFree(p: Pool, b: nat, h: int, toks: seq<Token>)
    ensures Publish(p, b, h, toks).free == p.free && |Publish(p, b, h, toks).blocks| == |p.blocks|
  {
  }

  lemma {:induction false} GrowHashFrom(c: Config, p: Pool, s: Row, i: nat, end: nat, h: int, t: seq<nat>, n: nat)
    requires n <= |p.free| && (forall j :: 0 <= j < |p.free| ==> p.free[j] < |p.blocks|)
    requires forall j :: 0 <= j < |s.table| ==> s.table[j] !in p.free
    ensures Grow(HashFrom(c, p, s, i, end, h), t, n).0 == HashFrom(c, Grow(p, t, n).0, s, i, end, h)
    decreases end - i
  {
    if i < end && i < |s.table| {
      var blk := BlockTokens(s.toks, i, c.blockSize);
      var d := c.hash(h, blk);
      hide Grow, Publish, BlockTokens;
      PublishFree(p, s.table[i], d, blk);
      GrowHashFrom(c, Publish(p, s.table[i], d, blk), s, i + 1, end, d, t, n);
      GrowPublish(p, t, n, s.table[i], d, blk);
    }
  }

  // ----- publishing in one go or in two -----

  lemma {:induction false} HashFromSame(c: Config, p: Pool, s: Row, s': Row, i: nat, end: nat, h: int)
    requires s'.toks == s.toks && s.table <= s'.table && end <= |s.table|
    ensures HashFrom(c, p, s', i, end, h) == HashFrom(c, p, s, i, end, h)
    decreases end - i
  {
    if i < end {
      var blk := BlockTokens(s.toks, i, c.blockSize);
      hide Publish, BlockTokens;
      HashFromSame(c, Publish(p, s.table[i], c.hash(h, blk), blk), s, s', i + 1, end, c.hash(h, blk));
    }
  }

  lemma {:induction false} HashFromSplit(c: Config, p: Pool, s: Row, i: nat, j: nat, k: nat)
    requires c.Valid() && i <= j <= k <= |s.table|
    ensures HashFrom(c, p, s, i, k, Chain(c, s.toks, i))
         == HashFrom(c, HashFrom(c, p, s, i, j, Chain(c, s.toks, i)), s, j, k, Chain(c, s.toks, j))
    decreases j - i
  {
    if i < j {
      var blk := BlockTokens(s.toks, i, c.blockSize);
      var d := Chain(c, s.toks, i + 1);
      assert d == c.hash(Chain(c, s.toks, i), blk);
      hide Publish, BlockTokens, Chain;
      HashFromSplit(c, Publish(p, s.table[i], d, blk), s, i + 1, j, k);
    }
  }

  lemma SeedIs(c: Config, p: Pool, s: Row)
    requires c.Valid() && Contents(c, p, s)
    ensures SeedHash(p, s, Full(c, s.cached)) == Chain(c, s.toks, Full(c, s.cached))
  {
    SeedIsChain(c, p, s);
  }

  lemma HashBlocksIs(c: Config, p: Pool, s: Row)
    requires c.Valid() && Contents(c, p, s)
    ensures HashBlocks(c, p, s)
         == HashFrom(c, p, s, Full(c, s.cached), Full(c, s.cached + s.sched), Chain(c, s.toks, Full(c, s.cached)))
  {
    hide SeedHash, Contents, Chain, HashFrom, HashBlocks, Full;
    HashBlocksUnfolds(c, p, s);
    SeedIs(c, p, s);
  }

  lemma ChainMore(c: Config, toks: seq<Token>, more: seq<Token>, k: nat)
    requires c.Valid() && k * c.blockSize <= |toks|
    ensures Chain(c, toks + more, k) == Chain(c, toks, k)
  {
    assert (toks + more)[..k * c.blockSize] == toks[..k * c.blockSize];
    ChainOfPrefix(c, toks + more, toks, k);
  }

  /** A row about to commit, with the blocks of its later tokens already attached. */
  ghost predicate Ahead(c: Config, p: Pool, s: Row, m: multiset<nat>)
    requires c.Valid()
  {
    && Wf(p) && Owned(p, m + multiset(s.table)) && Contents(c, p, s)
    && s.cached + 1 == |s.toks| && s.sched == 1 && CeilDiv(|s.toks|, c.blockSize) <= |s.table|
  }

  lemma AheadBounds(c: Config, p: Pool, s: Row, m: multiset<nat>, n: nat)
    requires c.Valid() && Ahead(c, p, s, m) && CeilDiv(|s.toks| + n, c.blockSize) <= |s.table|
    ensures Full(c, s.cached) <= Full(c, |s.toks|) <= Full(c, |s.toks| + n) <= |s.table|
    ensures Full(c, |s.toks|) * c.blockSize <= |s.toks| && Full(c, s.cached) * c.blockSize <= |s.toks|
  {
    DivMono(s.cached, |s.toks|, c.blockSize);
    DivMono(|s.toks|, |s.toks| + n, c.blockSize);
    FloorCeil(|s.toks| + n, c.blockSize);
    FloorCeil(|s.toks|, c.blockSize);
    DivBounds(|s.toks|, c.blockSize);
    DivBounds(s.cached, c.blockSize);
  }

  /** The second publication of two, by its digests. */
  lemma PublishSecond(c: Config, g: Pool, s: Row, m: multiset<nat>, more: seq<Token>, n: nat)
    requires c.Valid() && Ahead(c, g, s, m) && n == |more| && CeilDiv(|s.toks| + n, c.blockSize) <= |s.table|
    ensures var b := s.(toks := s.toks + more, cached := |s.toks|, sched := n);
      var q := HashBlocks(c, g, s);
      HashBlocks(c, q, b) == HashFrom(c, q, b, Full(c, |s.toks|), Full(c, |s.toks| + n), Chain(c, b.toks, Full(c, |s.toks|)))
  {
    hide Wf, Owned, Keeps, Contents, HashBlocks, HashFrom, CeilDiv, Chain, Full;
    var q := HashBlocks(c, g, s);
    HashBlocksKeeps(c, g, s, m);
    var s1 := s.(cached := s.cached + s.sched);
    ContentsAppend(c, q, s1, more);
    var b := s.(toks := s.toks + more, cached := |s.toks|, sched := n);
    ContentsSame(c, q, s1.(toks := s1.toks + more), b);
    HashBlocksIs(c, q, b);
  }

  /** The first publication, on the row with all its tokens. */
  lemma PublishFirst(c: Config, g: Pool, s: Row, m: multiset<nat>, more: seq<Token>, n: nat)
    requires c.Valid() && Ahead(c, g, s, m) && n == |more| && CeilDiv(|s.toks| + n, c.blockSize) <= |s.table|
    ensures var b := s.(toks := s.toks + more, sched := n + 1);
      HashBlocks(c, g, s) == HashFrom(c, g, b, Full(c, s.cached), Full(c, |s.toks|), Chain(c, b.toks, Full(c, s.cached)))
  {
    AheadBounds(c, g, s, m, n);
    AheadContents(c, g, s, m);
    hide Ahead, Contents, HashBlocks, HashFrom, CeilDiv, Chain, Full;
    var i, j := Full(c, s.cached), Full(c, |s.toks|);
    var t := s.(toks := s.toks + more);
    HashBlocksIs(c, g, s);
    ChainMore(c, s.toks, more, i);
    HashFromMore(c, g, s, more, i, j, Chain(c, s.toks, i));
    HashFromSame(c, g, t, t.(sched := n + 1), i, j, Chain(c, s.toks, i));
  }

  /** The single publication for all tokens. */
  lemma PublishWhole(c: Config, g: Pool, s: Row, m: multiset<nat>, more: seq<Token>, n: nat)
    requires c.Valid() && Ahead(c, g, s, m) && n == |more|
    ensures var b := s.(toks := s.toks + more, sched := n + 1);
      HashBlocks(c, g, b) == HashFrom(c, g, b, Full(c, s.cached), Full(c, |s.toks| + n), Chain(c, b.toks, Full(c, s.cached)))
  {
    hide Contents, HashBlocks, HashFrom, CeilDiv, Chain, Full, Wf, Owned;
    var t := s.(toks := s.toks + more);
    ContentsAppend(c, g, s, more);
    ContentsSame(c, g, t, t.(sched := n + 1));
    HashBlocksIs(c, g, t.(sched := n + 1));
    assert s.cached + (n + 1) == |s.toks| + n;
  }

  /** Publishing for the current token and then for `more` further tokens is
      publishing for all of them at once. */
  lemma PublishTwice(c: Config, g: Pool, s: Row, m: multiset<nat>, more: seq<Token>, n: nat)
    requires c.Valid() && Ahead(c, g, s, m) && n == |more| && CeilDiv(|s.toks| + n, c.blockSize) <= |s.table|
    ensures HashBlocks(c, HashBlocks(c, g, s), s.(toks := s.toks + more, cached := |s.toks|, sched := n))
         == HashBlocks(c, g, s.(toks := s.toks + more, sched := n + 1))
  {
    AheadBounds(c, g, s, m, n);
    PublishFirst(c, g, s, m, more, n);
    PublishWhole(c, g, s, m, more, n);
    PublishSecond(c, g, s, m, more, n);
    hide Ahead, HashBlocks, HashFrom, CeilDiv, Chain, Full;
    var b1 := s.(toks := s.toks + more, sched := n + 1);
    var b2 := s.(toks := s.toks + more, cached := |s.toks|, sched := n);
    var i, j, k := Full(c, s.cached), Full(c, |s.toks|), Full(c, |s.toks| + n);
    HashFromSplit(c, g, b1, i, j, k);
    HashFromSame(c, HashBlocks(c, g, s), b1, b2, j, k, Chain(c, b1.toks, j));
  }

  // ----- ordinary decoding of one row -----

  /** Successive ordinary steps of a row that is alone in its batch: commit a token,
      append the next block when needed. */
  function OrdinaryRun(c: Config, p: Pool, s: Row, ts: seq<Token>): Posted
    requires c.Valid() && ts != []
    decreases |ts|
  {
    var r := PostRow(c, p, s, ts[0]);
    if |ts| == 1 || r.row.status == Finished then r
    else
      var (p', s') := MayAppend(c, r.pool, r.row.(sched := 1, prefill := false));
      var rest := OrdinaryRun(c, p', s', ts[1..]);
      Posted(rest.pool, rest.row, r.events + rest.events)
  }

  /** Blocks a row still needs for its further tokens. */
  function More(c: Config, s: Row, n: nat): int
    requires c.Valid()
  {
    CeilDiv(|s.toks| + n, c.blockSize) - |s.table|
  }

  /** The same commit, made once for all tokens on a table grown in advance. */
  function OneCommit(c: Config, p: Pool, s: Row, ts: seq<Token>): Posted
    requires c.Valid() && ts != []
  {
    var n := More(c, s, |ts| - 1);
    if 0 <= n <= |p.free| then
      var r := PostRow(c, Grow(p, s.table, n).0, Bumped(s.(table := s.table + p.free[..n]), ts), Last(ts));
      Posted(r.pool, r.row, BurstEvents(s.id, ts, r.row.status == Finished))
    else Posted(p, s, [])
  }

  ghost predicate RunReady(c: Config, p: Pool, s: Row, ts: seq<Token>, a: seq<Row>)
    requires c.Valid()
  {
    && Held(c, p, [s] + a) && Planned(s) && ts != [] && RunsThrough(c, s, ts, |ts| - 1)
    && 0 <= More(c, s, |ts| - 1) <= |p.free|
  }

  lemma ReadyAhead(c: Config, p: Pool, s: Row, ts: seq<Token>, a: seq<Row>)
    requires c.Valid() && RunReady(c, p, s, ts, a)
    ensures Ahead(c, p, s, Owners(a)) && |s.table| == CeilDiv(|s.toks|, c.blockSize)
    ensures FreeList(p) && forall j :: 0 <= j < |s.table| ==> s.table[j] !in p.free
  {
    PermSelf([s] + a);
    HeldFocus(c, p, s, a, [s] + a);
    forall j | 0 <= j < |s.table| ensures s.table[j] !in p.free {
      assert s.table[j] in multiset(s.table);
      OwnedIsUsed(p, Owners(a) + multiset(s.table), s.table[j]);
    }
  }

  /** The first commit of a run that goes on: nothing stops, the row advances. */
  lemma FirstGoesOn(c: Config, p: Pool, s: Row, ts: seq<Token>)
    requires c.Valid() && Planned(s) && |ts| >= 2 && RunsThrough(c, s, ts, |ts| - 1)
    ensures PostRow(c, p, s, ts[0]) ==
      Posted(HashBlocks(c, p, s), s.(toks := s.toks + [ts[0]], cached := |s.toks|, sched := 0), [Event(s.id, ts[0], false)])
  {
    hide HashBlocks;
    assert ts[..1] == [ts[0]];
    assert !Stops(c, s.(toks := s.toks + ts[..1]));
    StopsSame(c, s, s.(cached := |s.toks|, sched := 0), s.toks + [ts[0]]);
  }

  /** Then the next position's block is appended and the row is planned again. */
  lemma RunStep(c: Config, p: Pool, s: Row, ts: seq<Token>, a: seq<Row>)
    requires c.Valid() && RunReady(c, p, s, ts, a) && |ts| >= 2
    ensures var r := PostRow(c, p, s, ts[0]);
      var s1 := r.row.(sched := 1, prefill := false);
      var (p', s') := MayAppend(c, r.pool, s1);
      var n := More(c, s, 1);
      && 0 <= n <= More(c, s, |ts| - 1) <= |p.free| && p' == Grow(r.pool, s.table, n).0
      && s' == s1.(table := s.table + p.free[..n]) && p'.free == p.free[n..]
      && RunReady(c, p', s', ts[1..], a)
      && More(c, s', |ts| - 2) == More(c, s, |ts| - 1) - n
  {
    hide PostRow, Held, Planned, RunsThrough, MayAppend, CeilDiv, Grow, Ahead, FreeList, RunReady, More;
    RunRoom(c, p, s, ts, a);
    RunFirst(c, p, s, ts, a);
    RunHeld(c, p, s, ts, a);
    var r := PostRow(c, p, s, ts[0]);
    var s1 := r.row.(sched := 1, prefill := false);
    var (p', s') := MayAppend(c, r.pool, s1);
    var n := More(c, s, 1);
    RunGrows(c, p, s, ts, a, r.pool, s1);
    RunGoes(c, p, s, ts, a);
    RunTokens(c, s, ts, s1);
    RunsSame(c, s1, s', ts[1..], |ts| - 2);
    MoreLess(c, s, s', |ts| - 1, n);
    RunReadyIs(c, p', s', ts[1..], a);
  }

  lemma MoreLess(c: Config, s: Row, s': Row, m: nat, n: nat)
    requires c.Valid() && m >= 1 && |s'.toks| == |s.toks| + 1 && |s'.table| == |s.table| + n
    ensures More(c, s', m - 1) == More(c, s, m) - n
  {
    hide CeilDiv;
    assert |s'.toks| + (m - 1) == |s.toks| + m;
  }

  lemma RunReadyIs(c: Config, p: Pool, s: Row, ts: seq<Token>, a: seq<Row>)
    requires c.Valid() && Held(c, p, [s] + a) && Planned(s) && ts != [] && RunsThrough(c, s, ts, |ts| - 1)
    requires 0 <= More(c, s, |ts| - 1) <= |p.free|
    ensures RunReady(c, p, s, ts, a)
  {
  }

  lemma RunGrows(c: Config, p: Pool, s: Row, ts: seq<Token>, a: seq<Row>, q: Pool, s1: Row)
    requires c.Valid() && RunReady(c, p, s, ts, a) && |s1.toks| == |s.toks| + 1 && s1.table == s.table
    ensures More(c, s, 1) >= 0 && MayAppend(c, q, s1).0 == Grow(q, s.table, More(c, s, 1)).0
  {
    hide CeilDiv, MayAppend, Grow, Ahead, RunReady;
    ReadyAhead(c, p, s, ts, a);
    RunPool1(c, q, s1, |s.toks|);
  }

  lemma RunGoes(c: Config, p: Pool, s: Row, ts: seq<Token>, a: seq<Row>)
    requires c.Valid() && RunReady(c, p, s, ts, a)
    ensures RunsThrough(c, s, ts, |ts| - 1)
  {
  }

  lemma RunPool1(c: Config, p: Pool, s: Row, len: nat)
    requires c.Valid() && |s.toks| == len + 1 && |s.table| == CeilDiv(len, c.blockSize)
    ensures var n := CeilDiv(len + 1, c.blockSize) - |s.table|; n >= 0 && MayAppend(c, p, s).0 == Grow(p, s.table, n).0
  {
    AppendTest(len, c.blockSize);
    GrowNone(p, s.table);
    hide CeilDiv;
  }

  lemma RunTokens(c: Config, s: Row, ts: seq<Token>, s1: Row)
    requires |ts| >= 2 && RunsThrough(c, s, ts, |ts| - 1) && Same(s, s1) && s1.toks == s.toks + [ts[0]]
    ensures RunsThrough(c, s1, ts[1..], |ts| - 2)
  {
    hide Stops;
    forall k: nat | 1 <= k <= |ts| - 2 ensures !Stops(c, s1.(toks := s1.toks + ts[1..][..k])) {
      assert s1.toks + ts[1..][..k] == s.toks + ts[..k + 1];
      StopsSame(c, s, s1, s1.toks + ts[1..][..k]);
    }
  }

  lemma RunsSame(c: Config, s: Row, s': Row, ts: seq<Token>, n: int)
    requires RunsThrough(c, s, ts, n) && Same(s, s') && s'.toks == s.toks
    ensures RunsThrough(c, s', ts, n)
  {
    hide Stops;
    forall k: nat | 1 <= k <= n && k <= |ts| ensures !Stops(c, s'.(toks := s'.toks + ts[..k])) {
      StopsSame(c, s, s', s.toks + ts[..k]);
    }
  }

  lemma RunHeld(c: Config, p: Pool, s: Row, ts: seq<Token>, a: seq<Row>)
    requires c.Valid() && RunReady(c, p, s, ts, a) && |ts| >= 2 && More(c, s, 1) <= |p.free|
    ensures var r := PostRow(c, p, s, ts[0]);
      var s1 := r.row.(sched := 1, prefill := false);
      var (p', s') := MayAppend(c, r.pool, s1);
      var n := More(c, s, 1);
      && Held(c, p', [s'] + a) && Planned(s') && 0 <= n <= 1 && s' == s1.(table := s.table + p.free[..n]) && p'.free == p.free[n..]
  {
    hide Ahead, Held, PostRow, MayAppend, RunReady, CeilDiv, HashBlocks, FreeList;
    RunFirst(c, p, s, ts, a);
    ReadyAhead(c, p, s, ts, a);
    RunCommits(c, p, s, ts, a);
    var r := PostRow(c, p, s, ts[0]);
    RunAppends(c, r.pool, r.row, |s.toks|, a);
  }

  lemma RunCommits(c: Config, p: Pool, s: Row, ts: seq<Token>, a: seq<Row>)
    requires c.Valid() && RunReady(c, p, s, ts, a) && |ts| >= 2
    ensures var r := PostRow(c, p, s, ts[0]);
      Held(c, r.pool, [r.row] + a) && Decoding(r.row) && r.pool.free == p.free
  {
    ReadyAhead(c, p, s, ts, a);
    FirstGoesOn(c, p, s, ts);
    hide Held, PostRow, HashBlocks, RunsThrough, Wf, Owned, Keeps, Contents;
    PostRowKeeps(c, p, s, a, ts[0]);
    HashBlocksKeeps(c, p, s, Owners(a));
  }

  lemma RunAppends(c: Config, p: Pool, s: Row, len: nat, a: seq<Row>)
    requires c.Valid() && Held(c, p, [s] + a) && Decoding(s) && |s.toks| == len + 1 && |s.table| == CeilDiv(len, c.blockSize)
    requires CeilDiv(len + 1, c.blockSize) - |s.table| <= |p.free|
    ensures var s1 := s.(sched := 1, prefill := false);
      var (p', s') := MayAppend(c, p, s1);
      var n := CeilDiv(len + 1, c.blockSize) - |s.table|;
      && Held(c, p', [s'] + a) && Planned(s') && 0 <= n <= 1 && s' == s1.(table := s.table + p.free[..n]) && p'.free == p.free[n..]
  {
    AppendTest(len, c.blockSize);
    assert CanAppend(c, p, s);
    PermSelf([s] + a);
    hide Held, Wf, Owned, Keeps, RowOk, From, Shrinks, MayAppend, CanAppend, CeilDiv;
    HeldFocus(c, p, s, a, [s] + a);
    PlannedOk(c, p, s, Owners(a));
    var s1 := s.(sched := 1, prefill := false);
    var (p', s') := MayAppend(c, p, s1);
    AppendShape(c, p, s, Owners(a));
    HeldReplace(c, p, p', s, s', a);
  }

  lemma AppendShape(c: Config, p: Pool, s: Row, rest: multiset<nat>)
    requires c.Valid() && Wf(p) && Owned(p, rest + multiset(s.table)) && RowOk(c, p, s) && Decoding(s) && CanAppend(c, p, s)
    ensures var s1 := s.(sched := 1, prefill := false);
      var (p', s') := MayAppend(c, p, s1);
      var n := CeilDiv(|s.toks|, c.blockSize) - |s.table|;
      0 <= n <= |p.free| && s' == s1.(table := s.table + p.free[..n]) && p'.free == p.free[n..]
  {
    hide Wf, Owned, Keeps, Contents, MayAppend, Shrinks, CanAppend, CeilDiv, RowOk, Decoding;
    var s1 := s.(sched := 1, prefill := false);
    AppendParts(c, p, s);
    ContentsSame(c, p, s, s1);
    CanAppendSame(c, p, s, s1);
    MayAppendKeeps(c, p, s1, rest);
  }

  lemma AppendParts(c: Config, p: Pool, s: Row)
    requires c.Valid() && RowOk(c, p, s) && Decoding(s)
    ensures Contents(c, p, s) && |s.toks| == s.cached + 1 && |s.table| == CeilDiv(s.cached, c.blockSize)
  {
    hide CeilDiv, Contents;
  }

  lemma CanAppendSame(c: Config, p: Pool, s: Row, s': Row)
    requires c.Valid() && s'.toks == s.toks
    ensures CanAppend(c, p, s') == CanAppend(c, p, s)
  {
  }

  // ----- the run is one commit -----

  /** Rows that agree after their advance, on equal published pools, commit alike. */
  lemma PostAlike(c: Config, p: Pool, s: Row, p': Pool, s': Row, t: Token)
    requires c.Valid() && HashBlocks(c, p, s) == HashBlocks(c, p', s')
    requires s'.(cached := s.cached, sched := s.sched) == s && s'.cached + s'.sched == s.cached + s.sched
    ensures PostRow(c, p, s, t) == PostRow(c, p', s', t)
  {
    hide HashBlocks, Emit;
    assert s.(cached := s.cached + s.sched, sched := 0) == s'.(cached := s'.cached + s'.sched, sched := 0);
  }

  lemma OneCommitLast(c: Config, p: Pool, s: Row, t: Token)
    requires c.Valid() && Planned(s) && |s.table| == CeilDiv(|s.toks|, c.blockSize)
    ensures OneCommit(c, p, s, [t]) == PostRow(c, p, s, t)
  {
    hide CeilDiv, HashBlocks;
    assert s.table + p.free[..0] == s.table && s.toks + [t][..0] == s.toks;
    GrowNone(p, s.table);
    assert Bumped(s.(table := s.table + p.free[..0]), [t]) == s;
    PostRowShape(c, p, s, t);
    var r := PostRow(c, p, s, t);
    assert BurstEvents(s.id, [t], r.row.status == Finished) == [Event(s.id, t, r.row.status == Finished)];
  }

  lemma GrowAhead(c: Config, p: Pool, s: Row, ts: seq<Token>, a: seq<Row>, n: nat)
    requires c.Valid() && RunReady(c, p, s, ts, a) && n <= |p.free|
    ensures Ahead(c, Grow(p, s.table, n).0, s.(table := s.table + p.free[..n]), Owners(a))
  {
    ReadyAhead(c, p, s, ts, a);
    hide Wf, Owned, Keeps, Contents, CeilDiv, RunReady, Grow, Shrinks;
    GrowRow(c, p, s, n, Owners(a));
  }

  /** Growing after the first commit or before it leaves the same pool. */
  lemma GrowPast(c: Config, p: Pool, s: Row, ts: seq<Token>, a: seq<Row>, n: nat)
    requires c.Valid() && RunReady(c, p, s, ts, a) && n <= |p.free|
    ensures Grow(HashBlocks(c, p, s), s.table, n).0 == HashBlocks(c, Grow(p, s.table, n).0, s.(table := s.table + p.free[..n]))
    ensures Ahead(c, Grow(p, s.table, n).0, s.(table := s.table + p.free[..n]), Owners(a))
  {
    var g := Grow(p, s.table, n).0;
    var more := p.free[..n];
    hide Contents, HashBlocks, HashFrom, RunReady, Grow, Chain, Full, Ahead;
    GrowAhead(c, p, s, ts, a, n);
    AheadContents(c, g, s.(table := s.table + more), Owners(a));
    GrowPastHash(c, p, s, ts, a, n);
    HashGrown(c, g, s, more);
  }

  /** Publication ignores blocks past the coverage. */
  lemma HashGrown(c: Config, g: Pool, s: Row, more: seq<nat>)
    requires c.Valid() && Contents(c, g, s.(table := s.table + more)) && Full(c, s.cached + s.sched) <= |s.table|
    ensures HashBlocks(c, g, s.(table := s.table + more))
         == HashFrom(c, g, s, Full(c, s.cached), Full(c, s.cached + s.sched), Chain(c, s.toks, Full(c, s.cached)))
  {
    hide Contents, HashBlocks, HashFrom, Chain, Full;
    var s1 := s.(table := s.table + more);
    HashBlocksIs(c, g, s1);
    HashFromSame(c, g, s, s1, Full(c, s.cached), Full(c, s.cached + s.sched), Chain(c, s.toks, Full(c, s.cached)));
  }

  lemma GrowPastHash(c: Config, p: Pool, s: Row, ts: seq<Token>, a: seq<Row>, n: nat)
    requires c.Valid() && RunReady(c, p, s, ts, a) && n <= |p.free|
    ensures Full(c, s.cached + s.sched) <= |s.table|
    ensures Grow(HashBlocks(c, p, s), s.table, n).0
         == HashFrom(c, Grow(p, s.table, n).0, s, Full(c, s.cached), Full(c, s.cached + s.sched), Chain(c, s.toks, Full(c, s.cached)))
  {
    hide Contents, HashBlocks, HashFrom, RunReady, Grow, Chain, Full;
    GrowPastFacts(c, p, s, ts, a);
    HashBlocksIs(c, p, s);
    GrowHashFrom(c, p, s, Full(c, s.cached), Full(c, s.cached + s.sched), Chain(c, s.toks, Full(c, s.cached)), s.table, n);
  }

  lemma GrowPastFacts(c: Config, p: Pool, s: Row, ts: seq<Token>, a: seq<Row>)
    requires c.Valid() && RunReady(c, p, s, ts, a)
    ensures Contents(c, p, s) && Full(c, s.cached + s.sched) <= |s.table|
    ensures forall j :: 0 <= j < |s.table| ==> s.table[j] !in p.free
    ensures forall i :: 0 <= i < |p.free| ==> p.free[i] < |p.blocks|
  {
    hide RunReady, Contents, Ahead, FreeList, Full;
    ReadyAhead(c, p, s, ts, a);
    FreeInRange(p);
    AheadBounds(c, p, s, Owners(a), 0);
  }

  lemma AheadContents(c: Config, p: Pool, s: Row, m: multiset<nat>)
    requires c.Valid() && Ahead(c, p, s, m)
    ensures Contents(c, p, s)
  {
  }

  /** A whole ordinary run equals the one commit of all its tokens. */
  lemma {:induction false} RunIsOneCommit(c: Config, p: Pool, s: Row, ts: seq<Token>, a: seq<Row>)
    requires c.Valid() && RunReady(c, p, s, ts, a)
    ensures OrdinaryRun(c, p, s, ts) == OneCommit(c, p, s, ts)
    decreases |ts|
  {
    assert ts != [];
    hide PostRow, RunReady, OneCommit, CeilDiv, MayAppend;
    if |ts| == 1 {
      ReadyAhead(c, p, s, ts, a);
      assert ts == [ts[0]];
      assert Planned(s) by { RunPlanned(c, p, s, ts, a); }
      OneCommitLast(c, p, s, ts[0]);
    } else {
      RunStep(c, p, s, ts, a);
      RunFirst(c, p, s, ts, a);
      var r := PostRow(c, p, s, ts[0]);
      var (p', s') := MayAppend(c, r.pool, r.row.(sched := 1, prefill := false));
      RunIsOneCommit(c, p', s', ts[1..], a);
      RunJoins(c, p, s, ts, a);
    }
  }

  lemma RunPlanned(c: Config, p: Pool, s: Row, ts: seq<Token>, a: seq<Row>)
    requires c.Valid() && RunReady(c, p, s, ts, a)
    ensures Planned(s)
  {
  }

  lemma RunFirst(c: Config, p: Pool, s: Row, ts: seq<Token>, a: seq<Row>)
    requires c.Valid() && RunReady(c, p, s, ts, a) && |ts| >= 2
    ensures var r := PostRow(c, p, s, ts[0]);
      && r == Posted(HashBlocks(c, p, s), s.(toks := s.toks + [ts[0]], cached := |s.toks|, sched := 0), [Event(s.id, ts[0], false)])
      && r.row.status != Finished
  {
    FirstGoesOn(c, p, s, ts);
  }

  /** The inductive step: a first commit followed by one commit of the rest. */
  lemma RunJoins(c: Config, p: Pool, s: Row, ts: seq<Token>, a: seq<Row>)
    requires c.Valid() && RunReady(c, p, s, ts, a) && |ts| >= 2
    ensures var r := PostRow(c, p, s, ts[0]);
      var (p', s') := MayAppend(c, r.pool, r.row.(sched := 1, prefill := false));
      var rest := OneCommit(c, p', s', ts[1..]);
      OneCommit(c, p, s, ts) == Posted(rest.pool, rest.row, r.events + rest.events)
  {
    hide PostRow, RunReady, HashBlocks, CeilDiv, MayAppend, Ahead, Grow, More;
    RunStep(c, p, s, ts, a);
    RunFirst(c, p, s, ts, a);
    RunPlannedFields(c, p, s, ts, a);
    var r := PostRow(c, p, s, ts[0]);
    var (p', s') := MayAppend(c, r.pool, r.row.(sched := 1, prefill := false));
    var n, n1, n2 := More(c, s, |ts| - 1), More(c, s, 1), More(c, s', |ts| - 2);
    var g := Grow(p, s.table, n).0;
    var g' := Grow(p', s'.table, n2).0;
    var s1 := s.(table := s.table + p.free[..n]);
    var b := Bumped(s1, ts);
    var t' := s'.(table := s'.table + p'.free[..n2]);
    assert g' == Grow(HashBlocks(c, p, s), s.table, n).0 by {
      RunPool(c, p, s, ts, a);
      GrowTwice(HashBlocks(c, p, s), s.table, s'.table, n1, n2);
    }
    assert t'.table == s1.table by { SplitFree(s.table, p.free, n1, n2); }
    GrowPast(c, p, s, ts, a, n);
    JoinBlocks(c, p, s, ts, a, g, s1, t', n);
    JoinRows(c, g, b, g', Bumped(t', ts[1..]), s, ts);
  }

  lemma SplitFree(t: seq<nat>, free: seq<nat>, a: nat, b: nat)
    requires a + b <= |free|
    ensures t + free[..a] + free[a..][..b] == t + free[..a + b]
  {
  }

  lemma JoinRows(c: Config, g: Pool, b: Row, g': Pool, b': Row, s: Row, ts: seq<Token>)
    requires c.Valid() && |ts| >= 2 && HashBlocks(c, g, b) == HashBlocks(c, g', b')
    requires b'.(cached := b.cached, sched := b.sched) == b && b'.cached + b'.sched == b.cached + b.sched
    ensures PostRow(c, g, b, Last(ts)) == PostRow(c, g', b', Last(ts[1..]))
    ensures forall f :: [Event(s.id, ts[0], false)] + BurstEvents(s.id, ts[1..], f) == BurstEvents(s.id, ts, f)
  {
    hide HashBlocks, PostRow;
    PostAlike(c, g, b, g', b', Last(ts));
    JoinEvents(s.id, ts, true);
    JoinEvents(s.id, ts, false);
  }

  lemma JoinEvents(id: nat, ts: seq<Token>, f: bool)
    requires |ts| >= 2
    ensures [Event(id, ts[0], false)] + BurstEvents(id, ts[1..], f) == BurstEvents(id, ts, f)
  {
  }

  lemma RunPlannedFields(c: Config, p: Pool, s: Row, ts: seq<Token>, a: seq<Row>)
    requires c.Valid() && RunReady(c, p, s, ts, a)
    ensures !s.prefill && s.sched == 1 && s.cached + 1 == |s.toks|
  {
  }

  lemma ReadyRoom(c: Config, p: Pool, s: Row, ts: seq<Token>, a: seq<Row>)
    requires c.Valid() && RunReady(c, p, s, ts, a)
    ensures 0 <= More(c, s, |ts| - 1) <= |p.free|
  {
    hide Held, RunsThrough, More;
  }

  lemma RunRoom(c: Config, p: Pool, s: Row, ts: seq<Token>, a: seq<Row>)
    requires c.Valid() && RunReady(c, p, s, ts, a) && |ts| >= 2
    ensures 0 <= More(c, s, 1) <= More(c, s, |ts| - 1) <= |p.free|
  {
    hide RunReady, CeilDiv, Ahead;
    ReadyAhead(c, p, s, ts, a);
    ReadyRoom(c, p, s, ts, a);
    CeilMono(|s.toks|, |s.toks| + 1, c.blockSize);
    CeilMono(|s.toks| + 1, |s.toks| + |ts| - 1, c.blockSize);
  }

  lemma RunPool(c: Config, p: Pool, s: Row, ts: seq<Token>, a: seq<Row>)
    requires c.Valid() && RunReady(c, p, s, ts, a)
    ensures HashBlocks(c, p, s).free == p.free
    ensures forall i :: 0 <= i < |p.free| ==> p.free[i] < |HashBlocks(c, p, s).blocks|
  {
    ReadyAhead(c, p, s, ts, a);
    hide HashBlocks, Owned, Contents;
    HashBlocksKeeps(c, p, s, Owners(a));
    FreeInRange(HashBlocks(c, p, s));
  }

  lemma JoinBlocks(c: Config, p: Pool, s: Row, ts: seq<Token>, a: seq<Row>, g: Pool, s1: Row, t: Row, n: nat)
    requires c.Valid() && |ts| >= 2 && Ahead(c, g, s1, Owners(a)) && n == More(c, s, |ts| - 1)
    requires s.sched == 1 && s.cached + 1 == |s.toks| && s1 == s.(table := s1.table) && |s1.table| == |s.table| + n
    requires t == s1.(toks := s.toks + [ts[0]], cached := |s.toks|)
    ensures var b, b' := Bumped(s1, ts), Bumped(t, ts[1..]);
      && HashBlocks(c, g, b) == HashBlocks(c, HashBlocks(c, g, s1), b')
      && b'.(cached := b.cached, sched := b.sched) == b && b'.cached + b'.sched == b.cached + b.sched
  {
    var more := ts[..|ts| - 1];
    assert s.toks + [ts[0]] + ts[1..][..|ts| - 2] == s.toks + more;
    hide HashBlocks, Ahead, CeilDiv;
    PublishTwice(c, g, s1, Owners(a), more, |ts| - 1);
    HashBlocksSame(c, HashBlocks(c, g, s1), Bumped(t, ts[1..]), s1.(toks := s1.toks + more, cached := |s1.toks|, sched := |ts| - 1));
  }

  /** Publication reads only the tokens, the table and the coverage of a row. */
  lemma HashBlocksSame(c: Config, p: Pool, s: Row, s': Row)
    requires c.Valid() && s.toks == s'.toks && s.table == s'.table && s.cached == s'.cached && s.sched == s'.sched
    ensures HashBlocks(c, p, s) == HashBlocks(c, p, s')
  {
    var i, end := s.cached / c.blockSize, (s.cached + s.sched) / c.blockSize;
    if i != end { HashFromAny(c, p, s, s', i, end, SeedHash(p, s, i)); }
  }

  lemma {:induction false} HashFromAny(c: Config, p: Pool, s: Row, s': Row, i: nat, end: nat, h: int)
    requires s.toks == s'.toks && s.table == s'.table
    ensures HashFrom(c, p, s, i, end, h) == HashFrom(c, p, s', i, end, h)
    decreases end - i
  {
    if i < end && i < |s.table| {
      var blk := BlockTokens(s.toks, i, c.blockSize);
      hide Publish, BlockTokens;
      HashFromAny(c, Publish(p, s.table[i], c.hash(h, blk), blk), s, s', i + 1, end, c.hash(h, blk));
    }
  }
}
