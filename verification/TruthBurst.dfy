/** The caches during a speculative cycle: the lease does not disturb them, and a
    burst commit claims only positions that were computed on committed tokens. */
module TruthBurst {
  import opened Arith
  import opened Types
  import opened Pools
  import opened Allocator
  import opened Queues
  import opened Scheduling
  import opened States
  import opened Commit
  import opened Leases
  import opened Speculation
  import opened Burst
  import opened Transactions
  import opened Truth
  import opened TruthSteps

  // ----- the live lease -----

  lemma TookKeeps(p: Pool, q: Pool, order: seq<nat>, m: multiset<nat>)
    requires Wf(p) && Owned(p, m) && Took(p, q, order)
    ensures Wf(q) && Owned(q, m + multiset(order)) && Keeps(p, q, m) && Shrinks(p, q)
  {
    var n := |order|;
    assert p.free[..n] == order;
    TookIs(p, n, m);
    var g := Grow(p, [], n).0;
    assert g.blocks == q.blocks;
    assert g == q;
    hide Owned, FreeList, IndexAgrees, Took, Keeps, Shrinks, Grow;
    GrowKeeps(p, [], n, m);
    GrowShrinks(p, [], n, m);
  }

  lemma {:induction false} GrownOwners(rows: seq<Row>, rows': seq<Row>, leased: seq<LeaseRow>)
    requires |rows| == |rows'| == |leased|
    requires forall i :: 0 <= i < |rows| ==> GrownAs(rows[i], rows'[i], leased[i])
    ensures Owners(rows') == Owners(rows) + multiset(Flatten(leased))
  {
    if rows != [] {
      forall i | 0 <= i < |rows| - 1 ensures GrownAs(rows[1..][i], rows'[1..][i], leased[1..][i]) {
        assert GrownAs(rows[i + 1], rows'[i + 1], leased[i + 1]);
      }
      GrownOwners(rows[1..], rows'[1..], leased[1..]);
      assert GrownAs(rows[0], rows'[0], leased[0]);
      assert rows'[0].table == rows[0].table + leased[0].appended;
      assert multiset(rows'[0].table) == multiset(rows[0].table) + multiset(leased[0].appended);
    }
  }

  lemma {:induction false} FlattenHas(leased: seq<LeaseRow>, i: nat, b: nat)
    requires i < |leased| && b in leased[i].appended
    ensures b in Flatten(leased)
  {
    if i > 0 { FlattenHas(leased[1..], i - 1, b); }
  }

  lemma LeasedContents(c: Config, p: Pool, q: Pool, s: Row, s': Row, r: LeaseRow, order: seq<nat>, m: multiset<nat>)
    requires c.Valid() && Contents(c, p, s) && Keeps(p, q, m) && multiset(s.table) <= m && GrownAs(s, s', r)
    requires Took(p, q, order) && forall b :: b in r.appended ==> b in order
    ensures Contents(c, q, s')
  {
    forall b | b in r.appended ensures b < |q.blocks| && q.blocks[b] == FRESH { assert b in order; }
    hide Took, Contents, Keeps;
    ContentsStable(c, p, q, s, m);
    ContentsGrown(c, q, s, r.appended);
  }

  lemma LeasedRowsContents(c: Config, p: Pool, q: Pool, rows: seq<Row>, rows': seq<Row>, others: seq<Row>, lease: Lease)
    requires c.Valid() && Held(c, p, rows + others) && LeaseOf(p, rows, q, rows', lease)
    requires Keeps(p, q, Owners(rows + others))
    ensures forall s :: s in rows' + others ==> Contents(c, q, s)
  {
    hide LeaseOf, Held, Keeps, Contents, Took, GrownAs, Flatten, Owners;
    LeaseGrown(p, rows, q, rows', lease);
    forall s | s in rows' + others ensures Contents(c, q, s) {
      if s in others {
        OtherContents(c, p, q, rows + others, s);
      } else {
        var i :| 0 <= i < |rows'| && rows'[i] == s;
        LeasedRowContents(c, p, q, rows, rows', others, lease, i);
      }
    }
  }

  lemma OtherContents(c: Config, p: Pool, q: Pool, all: seq<Row>, s: Row)
    requires c.Valid() && Held(c, p, all) && Keeps(p, q, Owners(all)) && s in all
    ensures Contents(c, q, s)
  {
    hide Held, Keeps, Contents, Fits;
    HeldMember(c, p, all, s);
    var i :| 0 <= i < |all| && all[i] == s;
    OwnersAt(all, i);
    ContentsStable(c, p, q, s, Owners(all));
  }

  lemma LeasedRowContents(c: Config, p: Pool, q: Pool, rows: seq<Row>, rows': seq<Row>, others: seq<Row>, lease: Lease, i: nat)
    requires c.Valid() && Held(c, p, rows + others) && LeaseOf(p, rows, q, rows', lease)
    requires Keeps(p, q, Owners(rows + others)) && i < |rows| == |rows'|
    ensures Contents(c, q, rows'[i])
  {
    hide LeaseOf, Held, Keeps, Contents, Fits, Took, GrownAs, Flatten;
    LeaseGrown(p, rows, q, rows', lease);
    assert (rows + others)[i] == rows[i];
    HeldMember(c, p, rows + others, rows[i]);
    OwnersAt(rows + others, i);
    forall b | b in lease.rows[i].appended ensures b in lease.order { FlattenHas(lease.rows, i, b); }
    LeasedContents(c, p, q, rows[i], rows'[i], lease.rows[i], lease.order, Owners(rows + others));
  }

  /** While a lease is live every leased position still has exactly one owner. */
  lemma LeasedIsolated(c: Config, base: Sys, y: Sys, lease: Lease, k: nat, prepared: bool)
    requires c.Valid() && Leased(c, base, y, lease, k, prepared)
    ensures Isolated(c, y.pool, y.running + y.waiting)
    ensures Shrinks(LeaseBase(base, lease, prepared).pool, y.pool)
  {
    hide Leased, PureDecode, LeaseOf, LeaseBase, Wf, Owned, Keeps, Contents, Took, GrownAs, Shrinks, AllOk, Distinct;
    var p := LeaseBase(base, lease, prepared).pool;
    var rows, others := base.running, base.waiting;
    BaseHeld(c, base, y, lease, k, prepared);
    LeasedParts(c, base, y, lease, k, prepared);
    LeaseGrown(p, rows, y.pool, y.running, lease);
    var m := Owners(rows + others);
    TookKeeps(p, y.pool, lease.order, m);
    GrownOwners(rows, y.running, lease.rows);
    OwnersConcat(rows, others);
    OwnersConcat(y.running, others);
    assert Owners(y.running + others) == m + multiset(lease.order);
    LeasedRowsContents(c, p, y.pool, rows, y.running, others, lease);
  }

  lemma LeaseGrown(p: Pool, rows: seq<Row>, q: Pool, rows': seq<Row>, lease: Lease)
    requires LeaseOf(p, rows, q, rows', lease)
    ensures |rows| == |rows'| == |lease.rows| && Took(p, q, lease.order) && Flatten(lease.rows) == lease.order
    ensures forall i :: 0 <= i < |rows| ==> GrownAs(rows[i], rows'[i], lease.rows[i])
  {
    hide Took, Flatten, Tables, GrownAs;
  }

  lemma AllTrueGrown(c: Config, rows: seq<Row>, rows': seq<Row>, leased: seq<LeaseRow>, kv: Cache, dkv: Cache)
    requires c.Valid() && |rows| == |rows'| == |leased|
    requires forall i :: 0 <= i < |rows| ==> GrownAs(rows[i], rows'[i], leased[i])
    requires forall i :: 0 <= i < |rows| ==> rows[i].cached <= |rows[i].table| * c.blockSize && rows[i].draft <= rows[i].cached
    ensures AllTrue(c, kv, dkv, rows) <==> AllTrue(c, kv, dkv, rows')
  {
    forall i | 0 <= i < |rows| ensures RowTrue(c, kv, dkv, rows[i]) <==> RowTrue(c, kv, dkv, rows'[i]) {
      assert GrownAs(rows[i], rows'[i], leased[i]);
      RowTrueGrown(c, kv, dkv, rows[i], leased[i].appended);
    }
    hide GrownAs, RowTrue;
    if AllTrue(c, kv, dkv, rows) {
      forall s | s in rows' ensures RowTrue(c, kv, dkv, s) {
        var i :| 0 <= i < |rows'| && rows'[i] == s;
        assert rows[i] in rows;
      }
    }
    if AllTrue(c, kv, dkv, rows') {
      forall s | s in rows ensures RowTrue(c, kv, dkv, s) {
        var i :| 0 <= i < |rows| && rows[i] == s;
        assert rows'[i] in rows';
      }
    }
  }

  /** Reserving or releasing the lease changes no claim about the caches. */
  lemma LeasedTrue(c: Config, base: Sys, y: Sys, lease: Lease, k: nat, prepared: bool, kv: Cache, dkv: Cache)
    requires c.Valid() && Leased(c, base, y, lease, k, prepared)
    ensures AllTrue(c, kv, dkv, base.running + base.waiting) <==> AllTrue(c, kv, dkv, y.running + y.waiting)
  {
    hide Leased, PureDecode, LeaseOf, LeaseBase, AllTrue, Held, RowOk, Planned, GrownAs, Took, Flatten;
    LeasedParts(c, base, y, lease, k, prepared);
    LeaseGrown(LeaseBase(base, lease, prepared).pool, base.running, y.pool, y.running, lease);
    PureHeld(c, base);
    forall i | 0 <= i < |base.running|
      ensures base.running[i].cached <= |base.running[i].table| * c.blockSize && base.running[i].draft <= base.running[i].cached
    {
      CoversCached(c, base.pool, base.running[i]);
    }
    AllTrueGrown(c, base.running, y.running, lease.rows, kv, dkv);
    AllTrueConcat(c, kv, dkv, base.running, base.waiting);
    AllTrueConcat(c, kv, dkv, y.running, y.waiting);
  }

  lemma RowTrueGrown(c: Config, kv: Cache, dkv: Cache, s: Row, more: seq<nat>)
    requires c.Valid() && s.cached <= |s.table| * c.blockSize && s.draft <= s.cached
    ensures RowTrue(c, kv, dkv, s) <==> RowTrue(c, kv, dkv, s.(table := s.table + more))
  {
    var s' := s.(table := s.table + more);
    if RowTrue(c, kv, dkv, s) {
      TrueMore(c.blockSize, kv, s.table, more, s.toks, s.cached);
      TrueMore(c.blockSize, dkv, s.table, more, s.toks, s.draft);
    }
    if RowTrue(c, kv, dkv, s') {
      TrueLess(c.blockSize, kv, s'.table, s.table, s.toks, s.cached, s.cached);
      TrueLess(c.blockSize, dkv, s'.table, s.table, s.toks, s.draft, s.draft);
    }
  }

  /** After target writes were prepared, arbitrary writes at the uncovered positions,
      leased ones included, keep every claim: also those a rollback would restore. */
  lemma LeasedWriteIsolation(c: Config, base: Sys, y: Sys, lease: Lease, k: nat, kv: Cache, kv': Cache, dkv: Cache)
    requires c.Valid() && Leased(c, base, y, lease, k, true)
    requires Truthful(c, LeaseBase(base, lease, true).pool, y.running + y.waiting, kv, dkv)
    requires Scribble(c.blockSize, kv, kv', y.running + y.waiting)
    ensures Truthful(c, LeaseBase(base, lease, true).pool, y.running + y.waiting, kv', dkv)
  {
    var p := LeaseBase(base, lease, true).pool;
    LeasedIsolated(c, base, y, lease, k, true);
    LeasedParts(c, base, y, lease, k, true);
    LeaseGrown(p, base.running, y.pool, y.running, lease);
    assert y.pool.index == p.index by { TwiceWithout(base.pool.index, ToSet(lease.order)); }
    hide Leased, Isolated, IndexTrue, AllTrue, Scribble, LeaseOf, Took, PureDecode, LeaseBase;
    SameIndex(c, p, y.pool, kv);
    WriteIsolation(c, y.pool, y.running + y.waiting, kv, kv', dkv);
    SameIndex(c, y.pool, p, kv');
  }

  lemma TwiceWithout(index: map<int, nat>, s: set<nat>)
    ensures Without(Without(index, s), s) == Without(index, s)
  {
  }

  // ----- the burst -----

  /** The verification pass filled k + 1 positions of every row, on its committed
      tokens followed by its proposals. */
  ghost predicate Verified(c: Config, kv: Cache, rows: seq<Row>, props: seq<seq<Token>>, k: nat) {
    && |props| == |rows|
    && forall i :: 0 <= i < |rows| ==>
        |props[i]| == k && TrueTo(c.blockSize, kv, rows[i].table, rows[i].toks + props[i], |rows[i].toks| + k)
  }

  /** Catch-up and k proposal steps filled the draft cache up to the last proposal's
      predecessor. */
  ghost predicate Proposed(c: Config, dkv: Cache, rows: seq<Row>, props: seq<seq<Token>>, k: nat) {
    && |props| == |rows|
    && forall i :: 0 <= i < |rows| ==>
        |props[i]| == k && |rows[i].toks| + k >= 1
        && TrueTo(c.blockSize, dkv, rows[i].table, rows[i].toks + props[i], |rows[i].toks| + k - 1)
  }

  lemma TruePrefix(bs: nat, kv: Cache, t: seq<nat>, x: seq<Token>, y: seq<Token>, n: nat, n': nat)
    requires TrueTo(bs, kv, t, x, n) && n' <= n && n' <= |x| && n' <= |y| && x[..n'] == y[..n']
    ensures TrueTo(bs, kv, t, y, n')
  {
    forall i: nat, j: nat | i < |t| && j < bs && Pos(bs, i, j) < n'
      ensures At(kv, t[i], j) == Prefix(y, Pos(bs, i, j) + 1)
    {
      var m := Pos(bs, i, j) + 1;
      assert x[..m] == x[..n'][..m];
      assert y[..m] == y[..n'][..m];
    }
  }

  /** The committed tokens before the last one are accepted proposals. */
  lemma CommittedAreProposed(c: Config, s: Row, k: nat, r: SpecRow, ts: seq<Token>)
    requires ValidResult(c, k, r) && CutIs(c, s, r.committed, ts)
    ensures |ts| - 1 <= k && ts[..|ts| - 1] == r.proposed[..|ts| - 1]
  {
    hide InVocabulary, Stops;
    assert ts[..|ts| - 1] == r.committed[..r.accepted][..|ts| - 1];
  }

  /** One committed row claims only positions computed on its committed tokens, in
      the target cache and in the draft cache. */
  lemma BurstRowTrue(c: Config, kv: Cache, dkv: Cache, s: Row, full: seq<nat>, table: seq<nat>, props: seq<Token>,
                     ts: seq<Token>, k: nat)
    requires c.Valid() && s.cached + 1 == |s.toks| && s.draft <= s.cached <= |table| * c.blockSize
    requires RowTrue(c, kv, dkv, s.(table := table)) && table <= full && |props| == k >= 1
    requires 1 <= |ts| <= k + 1 && ts[..|ts| - 1] == props[..|ts| - 1]
    requires TrueTo(c.blockSize, kv, full, s.toks + props, |s.toks| + k)
    requires TrueTo(c.blockSize, dkv, full, s.toks + props, |s.toks| + k - 1)
    ensures var b := Bumped(s.(table := table), ts);
      && RowTrue(c, kv, dkv, b) && TrueTo(c.blockSize, kv, table, b.toks, b.cached + b.sched)
      && TrueTo(c.blockSize, dkv, table, b.toks + [Last(ts)], DraftAfter(s, ts, k))
  {
    var m := |ts|;
    var b := Bumped(s.(table := table), ts);
    var x := s.toks + props;
    var n := |s.toks| + m - 1;
    assert b.toks == s.toks + ts[..m - 1] && |b.toks| == n;
    assert x[..n] == b.toks[..n];
    hide TrueTo;
    TrueLess(c.blockSize, kv, full, table, x, |s.toks| + k, n);
    TruePrefix(c.blockSize, kv, table, x, b.toks, n, n);
    TrueAppend(c.blockSize, kv, table, s.toks, ts[..m - 1], s.cached);
    TrueAppend(c.blockSize, dkv, table, s.toks, ts[..m - 1], s.draft);
    var d := DraftAfter(s, ts, k);
    assert d <= n && d <= |s.toks| + k - 1;
    assert x[..d] == b.toks[..d];
    TrueLess(c.blockSize, dkv, full, table, x, |s.toks| + k - 1, d);
    TruePrefix(c.blockSize, dkv, table, x, b.toks, d, d);
    TrueAppend(c.blockSize, dkv, table, b.toks, [Last(ts)], d);
  }

  ghost predicate BurstComputed(c: Config, kv: Cache, dkv: Cache, s: Row, full: Row, props: seq<Token>, ts: seq<Token>, k: nat) {
    && full.toks == s.toks && |props| == k >= 1 && |s.toks| >= 1
    && 1 <= |ts| <= k + 1 && ts[..|ts| - 1] == props[..|ts| - 1]
    && TrueTo(c.blockSize, kv, full.table, s.toks + props, |s.toks| + k)
    && TrueTo(c.blockSize, dkv, full.table, s.toks + props, |s.toks| + k - 1)
  }

  ghost predicate BumpedTrue(c: Config, kv: Cache, dkv: Cache, b: Row, t: Token, d: nat) {
    && RowTrue(c, kv, dkv, b) && TrueTo(c.blockSize, kv, b.table, b.toks, b.cached + b.sched)
    && TrueTo(c.blockSize, dkv, b.table, b.toks + [t], d)
  }

  lemma TrimmedRowTrue(c: Config, p: Pool, kv: Cache, dkv: Cache, s: Row, full: Row, r: LeaseRow, n: int,
                       props: seq<Token>, ts: seq<Token>, k: nat)
    requires c.Valid() && RowOk(c, p, s) && Planned(s) && RowTrue(c, kv, dkv, s) && GrownAs(s, full, r)
    requires 0 <= n <= |r.appended| && BurstComputed(c, kv, dkv, s, full, props, ts, k)
    ensures BumpedTrue(c, kv, dkv, Bumped(s.(table := s.table + r.appended[..n]), ts), Last(ts), DraftAfter(s, ts, k))
  {
    CoversCached(c, p, s);
    hide RowOk, RowTrue, TrueTo;
    var table := s.table + r.appended[..n];
    RowTrueGrown(c, kv, dkv, s, r.appended[..n]);
    assert full.table == table + r.appended[n..];
    MulMono(|s.table|, |table|, c.blockSize);
    BurstRowTrue(c, kv, dkv, s, full.table, table, props, ts, k);
  }

  lemma SurvivorDrafts(c: Config, kv: Cache, dkv: Cache, rows: seq<Row>, cuts: seq<seq<Token>>, k: nat, post: seq<Row>, burst: seq<Row>)
    requires |rows| == |cuts| == |post| == |burst| && forall i :: 0 <= i < |cuts| ==> cuts[i] != []
    requires forall i :: 0 <= i < |rows| ==> Committed(c, Bumped(rows[i], cuts[i]), Last(cuts[i]), post[i])
    requires forall i :: 0 <= i < |rows| ==> SameButDraft(rows[i], cuts[i], k, post[i], burst[i])
    requires forall i :: 0 <= i < |rows| ==>
      BumpedTrue(c, kv, dkv, Bumped(rows[i], cuts[i]), Last(cuts[i]), DraftAfter(rows[i], cuts[i], k))
    ensures DraftsTrue(c, dkv, Surviving(burst))
  {
    hide TrueTo, RowTrue, DraftAfter;
    var q := Surviving(burst);
    forall s | s in q ensures TrueTo(c.blockSize, dkv, s.table, s.toks, s.draft) {
      var i :| 0 <= i < |q| && q[i] == s;
      var n := SurvivingMember(burst, i);
      assert SameButDraft(rows[n], cuts[n], k, post[n], burst[n]);
      assert Committed(c, Bumped(rows[n], cuts[n]), Last(cuts[n]), post[n]);
      assert BumpedTrue(c, kv, dkv, Bumped(rows[n], cuts[n]), Last(cuts[n]), DraftAfter(rows[n], cuts[n], k));
    }
  }

  lemma BumpedAllTrue(c: Config, kv: Cache, dkv: Cache, rows: seq<Row>, cuts: seq<seq<Token>>, k: nat)
    requires |rows| == |cuts| && forall i :: 0 <= i < |cuts| ==> cuts[i] != []
    requires forall i :: 0 <= i < |rows| ==>
      BumpedTrue(c, kv, dkv, Bumped(rows[i], cuts[i]), Last(cuts[i]), DraftAfter(rows[i], cuts[i], k))
    ensures AllTrue(c, kv, dkv, BumpedRows(rows, cuts)) && Ran(c, kv, BumpedRows(rows, cuts))
  {
    hide TrueTo, RowTrue, DraftAfter, Bumped;
    var b := BumpedRows(rows, cuts);
    forall s | s in b ensures RowTrue(c, kv, dkv, s) && TrueTo(c.blockSize, kv, s.table, s.toks, s.cached + s.sched) {
      var i :| 0 <= i < |b| && b[i] == s;
      assert BumpedTrue(c, kv, dkv, Bumped(rows[i], cuts[i]), Last(cuts[i]), DraftAfter(rows[i], cuts[i], k));
    }
  }

  lemma TrimmedTrue(c: Config, base: Sys, full: seq<Row>, leased: seq<LeaseRow>, keep: seq<int>,
                    cuts: seq<seq<Token>>, props: seq<seq<Token>>, k: nat, kv: Cache, dkv: Cache)
    requires c.Valid() && PureDecode(c, base) && AllTrue(c, kv, dkv, base.running)
    requires |base.running| == |leased| == |cuts| == |full| == |props| && KeepFits(leased, keep)
    requires forall i :: 0 <= i < |cuts| ==> cuts[i] != []
    requires forall i :: 0 <= i < |cuts| ==>
      GrownAs(base.running[i], full[i], leased[i]) && BurstComputed(c, kv, dkv, base.running[i], full[i], props[i], cuts[i], k)
    ensures var rows := Trimmed(base.running, leased, keep);
      forall i :: 0 <= i < |rows| ==>
        BumpedTrue(c, kv, dkv, Bumped(rows[i], cuts[i]), Last(cuts[i]), DraftAfter(rows[i], cuts[i], k))
  {
    hide PureDecode, AllTrue, GrownAs, BurstComputed, BumpedTrue, RowOk, Planned, RowTrue, Bumped;
    var rows := Trimmed(base.running, leased, keep);
    forall i | 0 <= i < |rows|
      ensures BumpedTrue(c, kv, dkv, Bumped(rows[i], cuts[i]), Last(cuts[i]), DraftAfter(rows[i], cuts[i], k))
    {
      PureRow(c, base, i);
      AllTrueAt(c, kv, dkv, base.running, i);
      TrimmedRowTrue(c, base.pool, kv, dkv, base.running[i], full[i], leased[i], keep[i], props[i], cuts[i], k);
    }
  }

  lemma KeepingIndexTrue(c: Config, p: Pool, leased: seq<LeaseRow>, keep: seq<int>, kv: Cache)
    requires c.Valid() && KeepFits(leased, keep) && NoDup(Flatten(leased)) && forall b :: b in Flatten(leased) ==> b in p.free
    requires IndexTrue(c, p, kv)
    ensures IndexTrue(c, Keeping(p, Kept(leased, keep)), kv)
  {
    hide Flatten, Kept, KeepFits, IndexTrue;
    IndexShrinks(c, p, Keeping(p, Kept(leased, keep)), kv);
  }

  /** The commit core keeps the caches truthful for the surviving rows. */
  lemma BurstTruthful(c: Config, p: Pool, base: Sys, full: seq<Row>, leased: seq<LeaseRow>, keep: seq<int>,
                      cuts: seq<seq<Token>>, props: seq<seq<Token>>, k: nat, kv: Cache, dkv: Cache)
    requires c.Valid() && Injective(c) && PureDecode(c, base) && Held(c, p, base.running + base.waiting) && k >= 1
    requires |base.running| == |leased| == |cuts| == |full| == |props| && KeepFits(leased, keep)
    requires NoDup(Flatten(leased)) && forall b :: b in Flatten(leased) ==> b in p.free
    requires forall i :: 0 <= i < |cuts| ==>
      cuts[i] != [] && KeepsPrefix(c, base.running[i], cuts[i], leased[i].appended, keep[i])
    requires IndexTrue(c, p, kv) && AllTrue(c, kv, dkv, base.running)
    requires forall i :: 0 <= i < |cuts| ==>
      GrownAs(base.running[i], full[i], leased[i]) && BurstComputed(c, kv, dkv, base.running[i], full[i], props[i], cuts[i], k)
    ensures var x := BurstRows(c, Keeping(p, Kept(leased, keep)), Trimmed(base.running, leased, keep), cuts, k);
      IndexTrue(c, x.pool, kv) && AllTrue(c, kv, dkv, Surviving(x.rows))
  {
    hide Held, NoDup, Flatten, KeepsPrefix, Keeping, Kept, PostRows, BurstRows, AllComplete, Surviving, Redrafted,
      SameButDraft, Committed, Bumped, BurstStream, IndexTrue, RowTrue, AllTrue, Ran, BumpedTrue, BurstComputed, GrownAs,
      PureDecode, AboutToCommit, DraftAfter, DraftsTrue, RowOk, Planned, Trimmed, KeepFits, AllPlanned, Injective;
    var rows := Trimmed(base.running, leased, keep);
    var q := Keeping(p, Kept(leased, keep));
    TrimmedAbout(c, base, leased, keep);
    var b := BumpedRows(rows, cuts);
    KeepingIndexTrue(c, p, leased, keep, kv);
    TrimmedTrue(c, base, full, leased, keep, cuts, props, k, kv, dkv);
    PurePlanned(c, base);
    TrimmedHeld(c, p, base.running, base.waiting, leased, keep, cuts);
    BumpedAllTrue(c, kv, dkv, rows, cuts, k);
    BurstRowsArePost(c, q, rows, cuts, k);
    PostRowsShape(c, q, b, Lasts(cuts));
    PostRowsIndex(c, q, b, Lasts(cuts), base.waiting, kv);
    var x := BurstRows(c, q, rows, cuts, k);
    var post := PostRows(c, q, b, Lasts(cuts));
    SurvivorsRedrafted(c, rows, cuts, k, post.rows, x.rows);
    SurvivorDrafts(c, kv, dkv, rows, cuts, k, post.rows, x.rows);
    HeldDrafts(c, q, b, base.waiting);
    SurvivorsTrue(c, kv, dkv, b, Lasts(cuts), post.rows);
    RedraftedTrue(c, kv, dkv, Surviving(post.rows), Surviving(x.rows));
  }

  lemma AllTrueAt(c: Config, kv: Cache, dkv: Cache, q: seq<Row>, i: nat)
    requires AllTrue(c, kv, dkv, q) && i < |q|
    ensures RowTrue(c, kv, dkv, q[i])
  {
  }

  lemma PureRow(c: Config, y: Sys, i: nat)
    requires c.Valid() && PureDecode(c, y) && i < |y.running|
    ensures RowOk(c, y.pool, y.running[i]) && Planned(y.running[i])
  {
    PureHeld(c, y);
  }

  /** The burst commit keeps both caches truthful when verification and proposals
      were computed for the committed result. */
  lemma CommitTruthful(c: Config, base: Sys, y: Sys, lease: Lease, k: nat, results: seq<SpecRow>,
                       props: seq<seq<Token>>, kv: Cache, dkv: Cache)
    requires c.Valid() && Injective(c) && Leased(c, base, y, lease, k, true) && ResultsValid(c, k, results, |base.running|)
    requires Truthful(c, LeaseBase(base, lease, true).pool, y.running + y.waiting, kv, dkv)
    requires Verified(c, kv, y.running, props, k) && Proposed(c, dkv, y.running, props, k)
    requires |props| == |results| && forall i :: 0 <= i < |results| ==> results[i].proposed == props[i]
    ensures var r := CommitSpeculative(c, y, lease, k, results);
      r.CommitOk? && Truthful(c, r.sys.pool, Rows(r.sys), kv, dkv)
  {
    hide Leased, LeaseOf, LeaseBase, PureDecode, IndexTrue, AllTrue, Verified, Proposed, Held, CommitSpeculative,
      Surviving, BurstRows, KeepFits, KeepsPrefix, CutIs, BurstComputed, GrownAs, Took, Flatten, Cuts, KeepCounts, ValidResult, NoDup;
    var p := LeaseBase(base, lease, true).pool;
    LeasedParts(c, base, y, lease, k, true);
    LeaseGrown(p, base.running, y.pool, y.running, lease);
    BaseHeld(c, base, y, lease, k, true);
    LeasedTrue(c, base, y, lease, k, true, kv, dkv);
    AllTrueConcat(c, kv, dkv, base.running, base.waiting);
    CommitCuts(c, base, y, lease, k, true, results);
    CommitUnfolds(c, base, y, lease, k, true, results);
    var cuts := Cuts(c, y.running, results);
    var keep := KeepCounts(c, y.running, lease.rows, cuts);
    forall i | 0 <= i < |cuts| ensures BurstComputed(c, kv, dkv, base.running[i], y.running[i], props[i], cuts[i], k) {
      ComputedRow(c, base, y, lease, k, results, props, kv, dkv, i, cuts[i]);
    }
    assert |props| == |y.running| by { VerifiedSize(c, kv, y.running, props, k); }
    assert NoDup(lease.order) by { TookNoDup(p, y.pool, lease.order); }
    BurstTruthful(c, p, base, y.running, lease.rows, keep, cuts, props, k, kv, dkv);
    var x := BurstRows(c, Keeping(p, Kept(lease.rows, keep)), Trimmed(base.running, lease.rows, keep), cuts, k);
    AllTrueConcat(c, kv, dkv, base.waiting, Surviving(x.rows));
  }

  lemma VerifiedSize(c: Config, kv: Cache, rows: seq<Row>, props: seq<seq<Token>>, k: nat)
    requires Verified(c, kv, rows, props, k)
    ensures |props| == |rows|
  {
  }

  lemma TookNoDup(p: Pool, q: Pool, order: seq<nat>)
    requires Took(p, q, order)
    ensures NoDup(order)
  {
  }

  lemma ComputedRow(c: Config, base: Sys, y: Sys, lease: Lease, k: nat, results: seq<SpecRow>,
                    props: seq<seq<Token>>, kv: Cache, dkv: Cache, i: nat, ts: seq<Token>)
    requires c.Valid() && Leased(c, base, y, lease, k, true) && ResultsValid(c, k, results, |base.running|)
    requires Verified(c, kv, y.running, props, k) && Proposed(c, dkv, y.running, props, k)
    requires |y.running| == |base.running| == |results| == |props| && i < |results| && results[i].proposed == props[i]
    requires CutIs(c, y.running[i], results[i].committed, ts)
    ensures BurstComputed(c, kv, dkv, base.running[i], y.running[i], props[i], ts, k)
  {
    hide Leased, Fits, SuffixFor, CutIs, TrueTo, InVocabulary;
    LeasedRow(c, base, y, lease, k, true, i);
    assert ValidResult(c, k, results[i]);
    CommittedAreProposed(c, y.running[i], k, results[i], ts);
    CutNonEmpty(c, y.running[i], results[i].committed, ts);
    assert k >= 1 by { LeasedParts(c, base, y, lease, k, true); }
  }
}
