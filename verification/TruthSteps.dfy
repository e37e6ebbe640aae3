/** Every step keeps the caches truthful: publishing after the forward pass, draft
    catch-up and proposals, burst commits and undoing. */
module TruthSteps {
  import opened Arith
  import opened Types
  import opened Pools
  import opened Allocator
  import opened Queues
  import opened Scheduling
  import opened States
  import opened Commit
  import opened Leases
  import opened Transactions
  import opened Undo
  import opened Truth

  /** The forward pass filled the scheduled positions of these rows. */
  ghost predicate Ran(c: Config, kv: Cache, q: seq<Row>) {
    forall s :: s in q ==> TrueTo(c.blockSize, kv, s.table, s.toks, s.cached + s.sched)
  }

  // ----- publishing -----

  ghost predicate PublishedFrom(c: Config, p: Pool, q: Pool, s: Row, i: nat, end: nat)
    requires c.Valid()
  {
    forall h, b: nat :: Names(q, h, b) ==>
      Names(p, h, b) || exists l: nat :: i <= l < end && l < |s.table| && PublishedAt(c, s, l, h, b)
  }

  ghost predicate PublishedAt(c: Config, s: Row, l: nat, h: int, b: nat)
    requires c.Valid() && l < |s.table|
  {
    h == Chain(c, s.toks, l + 1) && b == s.table[l]
  }

  lemma {:induction false} HashFromIndex(c: Config, p: Pool, s: Row, i: nat, end: nat, h: int)
    requires c.Valid() && h == Chain(c, s.toks, i)
    ensures PublishedFrom(c, p, HashFrom(c, p, s, i, end, h), s, i, end)
    decreases end - i
  {
    if i < end && i < |s.table| {
      var d := Chain(c, s.toks, i + 1);
      assert d == c.hash(h, BlockTokens(s.toks, i, c.blockSize));
      var p1 := Publish(p, s.table[i], d, BlockTokens(s.toks, i, c.blockSize));
      hide Chain, BlockTokens;
      HashFromIndex(c, p1, s, i + 1, end, d);
      var q := HashFrom(c, p, s, i, end, h);
      forall x, b: nat | Names(q, x, b) && !Names(p, x, b)
        ensures exists l: nat :: i <= l < end && l < |s.table| && PublishedAt(c, s, l, x, b)
      {
        if Names(p1, x, b) {
          assert PublishedAt(c, s, i, x, b);
        }
      }
    }
  }

  lemma IndexTrueAt(c: Config, p: Pool, kv: Cache, toks: seq<Token>, k: nat, b: nat)
    requires c.Valid() && IndexTrue(c, p, kv) && (k + 1) * c.blockSize <= |toks| && Names(p, Chain(c, toks, k + 1), b)
    ensures BlockTrue(c.blockSize, kv, b, k, toks)
  {
  }

  lemma TrueOfAll(c: Config, p: Pool, kv: Cache)
    requires c.Valid()
    requires forall toks: seq<Token>, k: nat, b: nat ::
      (k + 1) * c.blockSize <= |toks| && Names(p, Chain(c, toks, k + 1), b) ==> BlockTrue(c.blockSize, kv, b, k, toks)
    ensures IndexTrue(c, p, kv)
  {
    hide Names, Chain, BlockTrue;
  }

  lemma PublishedNone(c: Config, p: Pool, s: Row, i: nat, end: nat)
    requires c.Valid()
    ensures PublishedFrom(c, p, p, s, i, end)
  {
  }

  /** New index entries come from the published blocks of the row. */
  lemma PublishedHere(c: Config, p: Pool, s: Row)
    requires c.Valid() && Contents(c, p, s)
    ensures PublishedFrom(c, p, HashBlocks(c, p, s), s, Full(c, s.cached), Full(c, s.cached + s.sched))
  {
    hide HashFrom, Chain, Names, PublishedAt, PublishedFrom, ContentsTo, SeedHash;
    var start, end := s.cached / c.blockSize, (s.cached + s.sched) / c.blockSize;
    SeedIsChain(c, p, s);
    HashFromIndex(c, p, s, start, end, Chain(c, s.toks, start));
    if start == end { PublishedNone(c, p, s, start, end); }
  }

  /** Publishing full blocks after they were computed keeps the index truthful. */
  lemma PublishTrue(c: Config, p: Pool, s: Row, kv: Cache)
    requires c.Valid() && Injective(c) && IndexTrue(c, p, kv) && RowOk(c, p, s)
    requires TrueTo(c.blockSize, kv, s.table, s.toks, s.cached + s.sched)
    ensures IndexTrue(c, HashBlocks(c, p, s), kv)
  {
    hide HashBlocks, HashFrom, Contents, CeilDiv, Chain, Names, PublishedAt, BlockTrue, TrueTo, Injective, IndexTrue;
    var bs := c.blockSize;
    var start, end := s.cached / bs, (s.cached + s.sched) / bs;
    var q := HashBlocks(c, p, s);
    PublishedHere(c, p, s);
    forall toks: seq<Token>, k: nat, b: nat | (k + 1) * bs <= |toks| && Names(q, Chain(c, toks, k + 1), b)
      ensures BlockTrue(bs, kv, b, k, toks)
    {
      if Names(p, Chain(c, toks, k + 1), b) {
        IndexTrueAt(c, p, kv, toks, k, b);
      } else {
        var l: nat :| start <= l < end && l < |s.table| && PublishedAt(c, s, l, Chain(c, toks, k + 1), b);
        PublishedBlock(c, s, kv, l, toks, k, b);
      }
    }
    TrueOfAll(c, q, kv);
  }

  lemma PublishedBlock(c: Config, s: Row, kv: Cache, l: nat, toks: seq<Token>, k: nat, b: nat)
    requires c.Valid() && Injective(c) && s.cached + s.sched <= |s.toks|
    requires TrueTo(c.blockSize, kv, s.table, s.toks, s.cached + s.sched)
    requires l < |s.table| && l < (s.cached + s.sched) / c.blockSize && PublishedAt(c, s, l, Chain(c, toks, k + 1), b)
    requires (k + 1) * c.blockSize <= |toks|
    ensures BlockTrue(c.blockSize, kv, b, k, toks)
  {
    var bs := c.blockSize;
    FullBlock(l, s.cached + s.sched, bs);
    ChainInjective(c, toks, s.toks, k + 1, l + 1);
    hide Chain;
    forall j: nat | j < bs ensures At(kv, b, j) == Prefix(toks, Pos(bs, k, j) + 1) {
      var n := Pos(bs, k, j) + 1;
      assert n <= (k + 1) * bs;
      assert At(kv, s.table[l], j) == Prefix(s.toks, n);
      assert toks[..n] == toks[..(k + 1) * bs][..n];
      assert s.toks[..n] == s.toks[..(l + 1) * bs][..n];
    }
  }

  // ----- the ordinary commit -----

  lemma PostRowIndex(c: Config, p: Pool, s: Row, token: Token, kv: Cache)
    requires c.Valid() && Injective(c) && IndexTrue(c, p, kv) && RowOk(c, p, s)
    requires TrueTo(c.blockSize, kv, s.table, s.toks, s.cached + s.sched)
    ensures IndexTrue(c, PostRow(c, p, s, token).pool, kv)
  {
    PublishTrue(c, p, s, kv);
    var q := HashBlocks(c, p, s);
    hide IndexTrue, HashBlocks, RowOk, TrueTo;
    ReleaseIndex(q, s.table);
    SameIndex(c, q, Release(q, s.table), kv);
  }

  lemma {:induction false} ReleaseIndex(p: Pool, table: seq<nat>)
    ensures Release(p, table).index == p.index
    decreases |table|
  {
    if table != [] { ReleaseIndex(Unref(p, table[|table| - 1]), table[..|table| - 1]); }
  }

  lemma SameIndex(c: Config, p: Pool, q: Pool, kv: Cache)
    requires c.Valid() && IndexTrue(c, p, kv) && q.index == p.index
    ensures IndexTrue(c, q, kv)
  {
    IndexShrinks(c, p, q, kv);
  }

  lemma {:induction false} PostRowsIndex(c: Config, p: Pool, rows: seq<Row>, tokens: seq<Token>, others: seq<Row>, kv: Cache)
    requires c.Valid() && Injective(c) && Held(c, p, rows + others) && AllComplete(rows) && |tokens| == |rows|
    requires IndexTrue(c, p, kv) && Ran(c, kv, rows)
    ensures IndexTrue(c, PostRows(c, p, rows, tokens).pool, kv)
    decreases |rows|
  {
    hide Held, PostRow, Complete, IndexTrue, TrueTo, Perm, RowOk;
    if rows != [] {
      var s, q := rows[0], rows[1..];
      assert rows + others == [s] + (q + others);
      assert Complete(s) && AllComplete(q);
      assert s in rows && forall x :: x in q ==> x in rows;
      HeldMember(c, p, [s] + (q + others), s);
      PostRowIndex(c, p, s, tokens[0], kv);
      PostRowKeeps(c, p, s, q + others, tokens[0]);
      var r := PostRow(c, p, s, tokens[0]);
      if r.row.status == Finished {
        PostRowsIndex(c, r.pool, q, tokens[1..], others, kv);
      } else {
        ShiftPerm(r.row, q, others);
        HeldPerm(c, r.pool, [r.row] + (q + others), q + ([r.row] + others));
        PostRowsIndex(c, r.pool, q, tokens[1..], [r.row] + others, kv);
      }
    }
  }

  lemma TrueAppend(bs: nat, kv: Cache, t: seq<nat>, toks: seq<Token>, more: seq<Token>, n: nat)
    requires TrueTo(bs, kv, t, toks, n) && n <= |toks|
    ensures TrueTo(bs, kv, t, toks + more, n)
  {
    forall i: nat, j: nat | i < |t| && j < bs && Pos(bs, i, j) < n
      ensures At(kv, t[i], j) == Prefix(toks + more, Pos(bs, i, j) + 1)
    {
      assert (toks + more)[..Pos(bs, i, j) + 1] == toks[..Pos(bs, i, j) + 1];
    }
  }

  lemma TrueLess(bs: nat, kv: Cache, t: seq<nat>, t': seq<nat>, toks: seq<Token>, n: nat, n': nat)
    requires TrueTo(bs, kv, t, toks, n) && n' <= n && t' <= t
    ensures TrueTo(bs, kv, t', toks, n')
  {
  }

  lemma CommittedTrue(c: Config, kv: Cache, dkv: Cache, s: Row, token: Token, s': Row)
    requires Committed(c, s, token, s') && s'.status != Finished && s.draft <= |s.toks|
    requires RowTrue(c, kv, dkv, s) && TrueTo(c.blockSize, kv, s.table, s.toks, |s.toks|)
    ensures RowTrue(c, kv, dkv, s')
  {
    hide TrueTo;
    TrueAppend(c.blockSize, kv, s.table, s.toks, [token], |s.toks|);
    TrueAppend(c.blockSize, dkv, s.table, s.toks, [token], s.draft);
  }

  lemma SurvivorsTrue(c: Config, kv: Cache, dkv: Cache, rows: seq<Row>, tokens: seq<Token>, rows': seq<Row>)
    requires |rows| == |rows'| == |tokens| && AllComplete(rows) && Ran(c, kv, rows) && AllTrue(c, kv, dkv, rows)
    requires forall i :: 0 <= i < |rows| ==> Committed(c, rows[i], tokens[i], rows'[i]) && rows[i].draft <= |rows[i].toks|
    ensures AllTrue(c, kv, dkv, Surviving(rows'))
  {
    hide TrueTo, Committed, RowTrue;
    var q := Surviving(rows');
    forall s | s in q ensures RowTrue(c, kv, dkv, s) {
      var i :| 0 <= i < |q| && q[i] == s;
      var k := SurvivingMember(rows', i);
      assert rows[k] in rows && Complete(rows[k]);
      assert Committed(c, rows[k], tokens[k], rows'[k]);
      CommittedTrue(c, kv, dkv, rows[k], tokens[k], rows'[k]);
    }
  }

  /** Rows with other draft coverages are truthful when those coverages are. */
  ghost predicate DraftsTrue(c: Config, dkv: Cache, q: seq<Row>) {
    forall s :: s in q ==> TrueTo(c.blockSize, dkv, s.table, s.toks, s.draft)
  }

  lemma RedraftedTrue(c: Config, kv: Cache, dkv: Cache, q: seq<Row>, q': seq<Row>)
    requires AllTrue(c, kv, dkv, q) && Redrafted(q, q') && DraftsTrue(c, dkv, q')
    ensures AllTrue(c, kv, dkv, q')
  {
    hide TrueTo;
    forall s | s in q' ensures RowTrue(c, kv, dkv, s) {
      var i :| 0 <= i < |q'| && q'[i] == s;
      assert q'[i] == q[i].(draft := q'[i].draft);
      assert RowTrue(c, kv, dkv, q[i]);
    }
  }

  lemma AllTrueConcat(c: Config, kv: Cache, dkv: Cache, a: seq<Row>, b: seq<Row>)
    ensures AllTrue(c, kv, dkv, a + b) <==> AllTrue(c, kv, dkv, a) && AllTrue(c, kv, dkv, b)
  {
    hide RowTrue;
    if AllTrue(c, kv, dkv, a + b) {
      forall s | s in a ensures RowTrue(c, kv, dkv, s) { assert s in a + b; }
      forall s | s in b ensures RowTrue(c, kv, dkv, s) { assert s in a + b; }
    }
  }

  /** The staged draft coverages were really computed, on the committed prefixes. */
  ghost predicate StagedTrue(c: Config, dkv: Cache, q: seq<Row>, staged: Coverage) {
    forall s :: s in q && s.id in staged ==> TrueTo(c.blockSize, dkv, s.table, s.toks, staged[s.id])
  }

  lemma StagedDrafts(c: Config, dkv: Cache, kv: Cache, rows: seq<Row>, tokens: seq<Token>, rows': seq<Row>, staged: Coverage)
    requires |rows| == |rows'| == |tokens| && StagedFits(rows, staged) && StagedTrue(c, dkv, rows, staged)
    requires forall i :: 0 <= i < |rows| ==> Committed(c, rows[i], tokens[i], rows'[i])
    requires AllTrue(c, kv, dkv, Surviving(rows'))
    ensures DraftsTrue(c, dkv, Covered(Surviving(rows'), staged))
  {
    hide TrueTo;
    var q := Surviving(rows');
    var q' := Covered(q, staged);
    forall s | s in q' ensures TrueTo(c.blockSize, dkv, s.table, s.toks, s.draft) {
      var i :| 0 <= i < |q'| && q'[i] == s;
      var k := SurvivingMember(rows', i);
      assert q[i] in q && RowTrue(c, kv, dkv, q[i]);
      assert Committed(c, rows[k], tokens[k], rows'[k]);
      assert rows[k] in rows;
      if s.id in staged {
        TrueAppend(c.blockSize, dkv, rows[k].table, rows[k].toks, [tokens[k]], staged[s.id]);
      }
    }
  }

  lemma PostChunkTrue(c: Config, p: Pool, y: Sys, run: seq<Row>, tokens: seq<Token>, kv: Cache, dkv: Cache)
    requires c.Valid() && Injective(c) && Held(c, p, run + y.waiting) && WaitShape(y) && |tokens| == |ChunkRows(y)|
    requires IndexTrue(c, p, kv) && AllTrue(c, kv, dkv, y.waiting) && Ran(c, kv, ChunkRows(y))
    ensures var chunk := ChunkRows(y);
      var r := PostRows(c, p, chunk, tokens);
      && IndexTrue(c, r.pool, kv) && AllTrue(c, kv, dkv, r.rows + y.waiting[|chunk|..])
  {
    hide Held, HashBlocks, IndexTrue, TrueTo, Emit;
    if ChunkRows(y) == [] {
      assert y.waiting[0..] == y.waiting;
      assert [] + y.waiting == y.waiting;
    } else {
      var s, q := y.waiting[0], y.waiting[1..];
      assert y.waiting == [s] + q;
      ChunkIsPartial(y);
      assert s in run + y.waiting && s in ChunkRows(y) && s in y.waiting;
      HeldMember(c, p, run + y.waiting, s);
      PostRowIndex(c, p, s, tokens[0], kv);
      var r := PostRow(c, p, s, tokens[0]);
      assert PostRows(c, r.pool, ChunkRows(y)[1..], tokens[1..]) == PostedAll(r.pool, [], []);
      assert PostRows(c, p, ChunkRows(y), tokens) == PostedAll(r.pool, [r.row], []);
      assert RowTrue(c, kv, dkv, s);
      assert RowTrue(c, kv, dkv, r.row);
    }
  }

  lemma RowDrafts(c: Config, p: Pool, q: seq<Row>, i: nat)
    requires c.Valid() && Held(c, p, q) && i < |q|
    ensures q[i].draft <= q[i].cached <= |q[i].toks|
  {
    hide Wf, Owned;
    assert RowOk(c, p, q[i]);
  }

  lemma HeldDrafts(c: Config, p: Pool, q: seq<Row>, others: seq<Row>)
    requires c.Valid() && Held(c, p, q + others)
    ensures forall i :: 0 <= i < |q| ==> q[i].draft <= q[i].cached && q[i].draft <= |q[i].toks|
  {
    hide Held;
    forall i | 0 <= i < |q| ensures q[i].draft <= q[i].cached && q[i].draft <= |q[i].toks| {
      assert (q + others)[i] == q[i];
      RowDrafts(c, p, q + others, i);
    }
  }

  /** The ordinary commit keeps the caches truthful. */
  lemma PostprocessTruthful(c: Config, y: Sys, ids: seq<nat>, tokens: seq<Token>, staged: Coverage, kv: Cache, dkv: Cache)
    requires c.Valid() && Injective(c) && Ready(c, y, ids) && |tokens| == |ids| && AllInVocabulary(c, tokens)
    requires StagedFits(y.running, staged) && StagedTrue(c, dkv, y.running, staged)
    requires Truthful(c, y.pool, Rows(y), kv, dkv) && Ran(c, kv, y.running + ChunkRows(y))
    ensures var r := Postprocess(c, y, tokens, staged);
      r.PostOk? && Truthful(c, r.sys.pool, Rows(r.sys), kv, dkv)
  {
    var n := |y.running|;
    var chunk := ChunkRows(y);
    var ta, tb := tokens[..n], tokens[n..];
    ReadyParts(c, y, ids);
    PostprocessKeeps(c, y, ids, tokens, staged);
    hide Held, PostRows, Postprocess, Perm, AllComplete, Committed, Emitted, Surviving, Covered, Ready, WaitShape,
      StagedFits, AllInVocabulary, Idle, Ids, ChunkRows, IndexTrue, RowTrue, TrueTo, StagedTrue;
    PostprocessSplits(c, y, tokens, staged);
    WaitFirst(y.waiting, y.running);
    HeldPerm(c, y.pool, Rows(y), y.running + y.waiting);
    AllTrueConcat(c, kv, dkv, y.waiting, y.running);
    PostRowsIndex(c, y.pool, y.running, ta, y.waiting, kv);
    PostRowsShape(c, y.pool, y.running, ta);
    PostRowsKeeps(c, y.pool, y.running, ta, y.waiting);
    var ra := PostRows(c, y.pool, y.running, ta);
    PostRunningTrue(c, y, ta, ra, staged, kv, dkv);
    PostChunkTrue(c, ra.pool, y, Surviving(ra.rows), tb, kv, dkv);
    var w := PostRows(c, ra.pool, chunk, tb).rows + y.waiting[|chunk|..];
    AllTrueConcat(c, kv, dkv, w, Covered(Surviving(ra.rows), staged));
  }

  lemma PostRunningTrue(c: Config, y: Sys, ta: seq<Token>, ra: PostedAll, staged: Coverage, kv: Cache, dkv: Cache)
    requires c.Valid() && Held(c, y.pool, y.running + y.waiting) && AllComplete(y.running)
    requires |ta| == |y.running| == |ra.rows| && AllTrue(c, kv, dkv, y.running) && Ran(c, kv, y.running)
    requires forall i :: 0 <= i < |y.running| ==> Committed(c, y.running[i], ta[i], ra.rows[i])
    requires Held(c, ra.pool, Surviving(ra.rows) + y.waiting)
    requires StagedFits(y.running, staged) && StagedTrue(c, dkv, y.running, staged)
    ensures AllTrue(c, kv, dkv, Covered(Surviving(ra.rows), staged))
  {
    hide Held, Committed, RowTrue, TrueTo, Surviving, StagedTrue, StagedFits, Complete, Covered, AllTrue, Ran;
    var q := Surviving(ra.rows);
    HeldDrafts(c, y.pool, y.running, y.waiting);
    HeldDrafts(c, ra.pool, q, y.waiting);
    SurvivorsTrue(c, kv, dkv, y.running, ta, ra.rows);
    StagedCovers(c, y.running, ra.rows, ta, staged);
    CoveredIsRedrafted(q, staged);
    StagedDrafts(c, dkv, kv, y.running, ta, ra.rows, staged);
    RedraftedTrue(c, kv, dkv, q, Covered(q, staged));
  }

  // ----- undoing -----

  lemma UndoTruthful(c: Config, y: Sys, kv: Cache, dkv: Cache)
    requires c.Valid() && PureDecode(c, y) && Truthful(c, y.pool, Rows(y), kv, dkv)
    ensures var r := UndoSchedule(c, y); r.Undone? && Truthful(c, r.sys.pool, Rows(r.sys), kv, dkv)
  {
    UndoKeeps(c, y);
    hide PureDecode, UndoSchedule, Idle, IndexTrue, TrueTo;
    var r := UndoSchedule(c, y).sys;
    SameIndex(c, y.pool, r.pool, kv);
    AllTrueConcat(c, kv, dkv, y.waiting, y.running);
    forall s | s in r.running ensures RowTrue(c, kv, dkv, s) {
      var i :| 0 <= i < |r.running| && r.running[i] == s;
      assert UndoneRow(c, y.running[i], r.running[i]);
      assert RowTrue(c, kv, dkv, y.running[i]);
      TrueLess(c.blockSize, kv, y.running[i].table, s.table, s.toks, s.cached, s.cached);
      TrueLess(c.blockSize, dkv, y.running[i].table, s.table, s.toks, s.draft, s.draft);
    }
    AllTrueConcat(c, kv, dkv, r.waiting, r.running);
  }

  /** Forgetting what free blocks cached keeps the caches truthful. */
  lemma EvictedTruthful(c: Config, p: Pool, order: seq<nat>, q: seq<Row>, kv: Cache, dkv: Cache)
    requires c.Valid() && Truthful(c, p, q, kv, dkv)
    ensures Truthful(c, Evicted(p, order), q, kv, dkv)
  {
    IndexShrinks(c, p, Evicted(p, order), kv);
  }

  // ----- draft writes -----

  /** Catch-up stores, at a covered position the draft cache lacks, the prefix of a
      row that owns the block. */
  ghost predicate CaughtUp(bs: nat, dkv': Cache, q: seq<Row>, b: nat, j: nat) {
    exists r, i: nat :: r in q && i < |r.table| && r.table[i] == b && r.draft <= Pos(bs, i, j) < r.cached
      && At(dkv', b, j) == Prefix(r.toks, Pos(bs, i, j) + 1)
  }

  /** A draft pass: catch-up writes are real, writes past the coverage arbitrary. */
  ghost predicate DraftPass(bs: nat, dkv: Cache, dkv': Cache, q: seq<Row>) {
    forall b: nat, j: nat ::
      || At(dkv', b, j) == At(dkv, b, j)
      || (j < bs && Writable(bs, q, b, j))
      || (j < bs && CaughtUp(bs, dkv', q, b, j))
  }

  /** Rows that share a covered slot agree on the prefix it holds: the target cache
      has room for one prefix per slot. */
  lemma CatchUpAgrees(c: Config, q: seq<Row>, kv: Cache, dkv: Cache, dkv': Cache, s: Row, l: nat, j: nat)
    requires AllTrue(c, kv, dkv, q) && s in q && l < |s.table| && j < c.blockSize && Pos(c.blockSize, l, j) < s.cached
    requires CaughtUp(c.blockSize, dkv', q, s.table[l], j)
    ensures At(dkv', s.table[l], j) == Prefix(s.toks, Pos(c.blockSize, l, j) + 1)
  {
    var bs := c.blockSize;
    hide Pos, Prefix, At;
    var r, i: nat :| r in q && i < |r.table| && r.table[i] == s.table[l] && r.draft <= Pos(bs, i, j) < r.cached
      && At(dkv', s.table[l], j) == Prefix(r.toks, Pos(bs, i, j) + 1);
    assert RowTrue(c, kv, dkv, r) && RowTrue(c, kv, dkv, s);
    assert At(kv, r.table[i], j) == Prefix(r.toks, Pos(bs, i, j) + 1);
    assert At(kv, s.table[l], j) == Prefix(s.toks, Pos(bs, l, j) + 1);
  }

  /** Draft catch-up may write blocks that rows share, and still keeps every draft
      coverage true. */
  lemma DraftPassTruthful(c: Config, p: Pool, q: seq<Row>, kv: Cache, dkv: Cache, dkv': Cache)
    requires c.Valid() && Isolated(c, p, q) && AllTrue(c, kv, dkv, q)
    requires DraftPass(c.blockSize, dkv, dkv', q) && forall s :: s in q ==> s.draft <= s.cached
    ensures AllTrue(c, kv, dkv', q)
  {
    var bs := c.blockSize;
    hide Isolated, Writable, CaughtUp, Pos, Prefix, At;
    forall s | s in q ensures RowTrue(c, kv, dkv', s) {
      assert RowTrue(c, kv, dkv, s);
      forall l: nat, j: nat | l < |s.table| && j < bs && Pos(bs, l, j) < s.draft
        ensures At(dkv', s.table[l], j) == Prefix(s.toks, Pos(bs, l, j) + 1)
      {
        CoveredNotWritable(c, p, q, s, l, j);
        assert At(dkv, s.table[l], j) == Prefix(s.toks, Pos(bs, l, j) + 1);
        if CaughtUp(bs, dkv', q, s.table[l], j) { CatchUpAgrees(c, q, kv, dkv, dkv', s, l, j); }
      }
    }
  }
}
