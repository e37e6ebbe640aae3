/** Rows together: who owns which block, and the invariant every operation keeps. */
module Queues {
  import opened Arith
  import opened Types
  import opened Pools
  import opened Allocator

  /** Every occurrence of a block in the tables of these rows. */
  function Owners(q: seq<Row>): multiset<nat> {
    if q == [] then multiset{} else multiset(q[0].table) + Owners(q[1..])
  }

  function Ids(q: seq<Row>): seq<nat> {
    seq(|q|, i requires 0 <= i < |q| => q[i].id)
  }

  ghost predicate Distinct(q: seq<Row>) {
    forall i, j :: 0 <= i < j < |q| ==> q[i].id != q[j].id
  }

  /** The admission bound: the request fits the pool at its longest, and it still
      has a completion token to produce. */
  ghost predicate Fits(c: Config, s: Row)
    requires c.Valid()
  {
    && 1 <= s.prompt <= |s.toks| && |s.toks| < s.prompt + s.maxTokens
    && CeilDiv(s.prompt + s.maxTokens - 1, c.blockSize) <= c.numBlocks
  }

  /** A live row: its table covers exactly its cached and scheduled positions and
      holds the right contents. */
  ghost predicate RowOk(c: Config, p: Pool, s: Row)
    requires c.Valid()
  {
    && Fits(c, s) && Contents(c, p, s) && s.draft <= s.cached
    && s.cached + s.sched <= |s.toks|
    && |s.table| == CeilDiv(s.cached + s.sched, c.blockSize)
  }

  ghost predicate AllOk(c: Config, p: Pool, q: seq<Row>)
    requires c.Valid()
  {
    forall i :: 0 <= i < |q| ==> RowOk(c, p, q[i])
  }

  /** The allocator invariant for one set of live rows. */
  ghost predicate Held(c: Config, p: Pool, q: seq<Row>)
    requires c.Valid()
  {
    && Wf(p) && |p.blocks| == c.numBlocks && Owned(p, Owners(q))
    && AllOk(c, p, q) && Distinct(q)
  }

  /** The same rows in another order. */
  ghost predicate Perm(a: seq<Row>, b: seq<Row>) {
    multiset(a) == multiset(b)
  }

  lemma PermTrans(a: seq<Row>, b: seq<Row>, d: seq<Row>)
    requires Perm(a, b) && Perm(b, d)
    ensures Perm(a, d) && Perm(b, a)
  {
  }

  lemma {:induction false} OwnersConcat(a: seq<Row>, b: seq<Row>)
    ensures Owners(a + b) == Owners(a) + Owners(b)
  {
    if a == [] {
      assert a + b == b;
    } else {
      assert (a + b)[1..] == a[1..] + b;
      OwnersConcat(a[1..], b);
    }
  }

  lemma OwnersOne(s: Row)
    ensures Owners([s]) == multiset(s.table)
  {
    assert [s][1..] == [];
  }

  lemma OwnersCons(s: Row, a: seq<Row>)
    ensures Owners([s] + a) == Owners(a) + multiset(s.table)
  {
    OwnersConcat([s], a);
    OwnersOne(s);
  }

  lemma {:induction false} OwnersAt(q: seq<Row>, i: nat)
    requires i < |q|
    ensures multiset(q[i].table) <= Owners(q)
  {
    if i > 0 { OwnersAt(q[1..], i - 1); }
  }

  lemma {:induction false} TwoOwners(q: seq<Row>, i: nat, j: nat, b: nat)
    requires i < j < |q| && b in q[i].table && b in q[j].table
    ensures Owners(q)[b] >= 2
  {
    if i == 0 {
      OwnersAt(q[1..], j - 1);
      assert b in multiset(q[j].table) && b in multiset(q[0].table);
    } else {
      TwoOwners(q[1..], i - 1, j - 1, b);
    }
  }

  lemma {:induction false} OwnersNone(q: seq<Row>)
    requires forall i :: 0 <= i < |q| ==> q[i].table == []
    ensures Owners(q) == multiset{}
  {
    if q != [] { OwnersNone(q[1..]); }
  }

  lemma FindRow(q: seq<Row>, s: Row) returns (i: nat)
    requires s in q
    ensures i < |q| && q[i] == s && multiset(q[..i] + q[i + 1..]) == multiset(q) - multiset{s}
    ensures Owners(q) == multiset(s.table) + Owners(q[..i] + q[i + 1..])
  {
    i :| 0 <= i < |q| && q[i] == s;
    assert q == q[..i] + [s] + q[i + 1..];
    OwnersConcat(q[..i] + [s], q[i + 1..]);
    OwnersConcat(q[..i], [s]);
    OwnersConcat(q[..i], q[i + 1..]);
    OwnersOne(s);
  }

  /** Ownership does not depend on the order of the rows. */
  lemma {:induction false} OwnersPerm(a: seq<Row>, b: seq<Row>)
    requires multiset(a) == multiset(b)
    ensures Owners(a) == Owners(b)
    decreases |a|
  {
    if a == [] {
      assert |multiset(b)| == 0;
    } else {
      var s := a[0];
      assert a == [s] + a[1..];
      assert s in multiset(b);
      var i := FindRow(b, s);
      assert multiset(a[1..]) == multiset(a) - multiset{s};
      OwnersPerm(a[1..], b[..i] + b[i + 1..]);
    }
  }

  lemma {:induction false} PermInjects(a: seq<Row>, b: seq<Row>)
    requires multiset(a) == multiset(b) && Distinct(a)
    ensures Distinct(b)
  {
    forall i, j | 0 <= i < j < |b| ensures b[i].id != b[j].id {
      if b[i].id == b[j].id {
        assert b[i] in multiset(b) && b[j] in multiset(b);
        var k :| 0 <= k < |a| && a[k] == b[i];
        var l :| 0 <= l < |a| && a[l] == b[j];
        assert k == l;
        RowTwice(b, i, j);
        RowOnce(a, k);
      }
    }
  }

  lemma RowTwice(b: seq<Row>, i: nat, j: nat)
    requires i < j < |b| && b[i] == b[j]
    ensures multiset(b)[b[i]] >= 2
  {
    assert b == b[..i] + [b[i]] + b[i + 1..j] + [b[j]] + b[j + 1..];
  }

  lemma RowOnce(a: seq<Row>, k: nat)
    requires k < |a| && Distinct(a)
    ensures multiset(a)[a[k]] == 1
  {
    assert a == a[..k] + [a[k]] + a[k + 1..];
    assert a[k] !in a[..k] && a[k] !in a[k + 1..];
  }

  /** The invariant speaks of the set of rows, not of their queues. */
  lemma HeldPerm(c: Config, p: Pool, a: seq<Row>, b: seq<Row>)
    requires c.Valid() && Held(c, p, a) && Perm(a, b)
    ensures Held(c, p, b)
  {
    OwnersPerm(a, b);
    PermInjects(a, b);
    forall i | 0 <= i < |b| ensures RowOk(c, p, b[i]) {
      assert b[i] in multiset(b);
      var k :| 0 <= k < |a| && a[k] == b[i];
    }
  }

  lemma AllOkStable(c: Config, p: Pool, p': Pool, q: seq<Row>)
    requires c.Valid() && AllOk(c, p, q) && Keeps(p, p', Owners(q))
    ensures AllOk(c, p', q)
  {
    forall i | 0 <= i < |q| ensures RowOk(c, p', q[i]) {
      OwnersAt(q, i);
      ContentsStable(c, p, p', q[i], Owners(q));
    }
  }

  lemma DistinctSwap(s: Row, s': Row, a: seq<Row>)
    requires Distinct([s] + a) && s'.id == s.id
    ensures Distinct([s'] + a)
  {
    var q := [s'] + a;
    forall i, j | 0 <= i < j < |q| ensures q[i].id != q[j].id {
      assert ([s] + a)[i].id == q[i].id && ([s] + a)[j].id == q[j].id;
    }
  }

  lemma TailOk(c: Config, p: Pool, s: Row, a: seq<Row>)
    requires c.Valid() && AllOk(c, p, [s] + a)
    ensures RowOk(c, p, s) && AllOk(c, p, a)
  {
    hide RowOk;
    assert ([s] + a)[0] == s;
    forall i | 0 <= i < |a| ensures RowOk(c, p, a[i]) { assert ([s] + a)[i + 1] == a[i]; }
  }

  lemma ConsOk(c: Config, p: Pool, s: Row, a: seq<Row>)
    requires c.Valid() && RowOk(c, p, s) && AllOk(c, p, a)
    ensures AllOk(c, p, [s] + a)
  {
  }

  /** One row changes with its blocks; the others are untouched. */
  lemma HeldReplace(c: Config, p: Pool, p': Pool, s: Row, s': Row, a: seq<Row>)
    requires c.Valid() && Held(c, p, [s] + a)
    requires Wf(p') && Owned(p', Owners(a) + multiset(s'.table)) && Keeps(p, p', Owners(a))
    requires RowOk(c, p', s') && s'.id == s.id
    ensures Held(c, p', [s'] + a)
  {
    hide RowOk, Wf, Keeps, Owned, AllOk, Distinct;
    OwnersCons(s', a);
    TailOk(c, p, s, a);
    AllOkStable(c, p, p', a);
    ConsOk(c, p', s', a);
    DistinctSwap(s, s', a);
    assert |p'.blocks| == |p.blocks| by { KeepsSize(p, p', Owners(a)); }
  }

  /** One row leaves and its blocks are released. */
  lemma HeldDrop(c: Config, p: Pool, s: Row, a: seq<Row>)
    requires c.Valid() && Held(c, p, [s] + a)
    ensures Held(c, Release(p, s.table), a) && Keeps(p, Release(p, s.table), Owners(a))
    ensures Release(p, s.table).index == p.index
  {
    hide RowOk, Wf, Keeps, Owned, AllOk;
    OwnersCons(s, a);
    ReleaseKeeps(p, s.table, Owners(a));
    KeepsSize(p, Release(p, s.table), Owners(a));
    TailOk(c, p, s, a);
    AllOkStable(c, p, Release(p, s.table), a);
    forall i, j | 0 <= i < j < |a| ensures a[i].id != a[j].id {
      assert ([s] + a)[i + 1] == a[i] && ([s] + a)[j + 1] == a[j];
    }
  }

  lemma HeldOwned(c: Config, p: Pool, s: Row, a: seq<Row>)
    requires c.Valid() && Held(c, p, [s] + a)
    ensures Owned(p, Owners(a) + multiset(s.table)) && RowOk(c, p, s)
  {
    hide RowOk, Wf, Owned, Distinct;
    OwnersCons(s, a);
    assert ([s] + a)[0] == s;
  }

  /** The longest the row can get fits the pool, so its current tokens do. */
  lemma FitsNow(c: Config, s: Row)
    requires c.Valid() && Fits(c, s)
    ensures s.NumBlocks(c.blockSize) <= c.numBlocks
  {
    CeilMono(|s.toks|, s.prompt + s.maxTokens - 1, c.blockSize);
  }
}
