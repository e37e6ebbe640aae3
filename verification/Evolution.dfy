/** How scheduling may change the live rows: requests are kept, tables only grow,
    restart empty or restart on blocks the prefix index knew. */
module Evolution {
  import opened Types
  import opened Pools
  import opened Allocator
  import opened Queues

  /** The request itself, without any scheduling or cache state. */
  function Core(s: Row): Row {
    s.(status := Waiting, cached := 0, draft := 0, sched := 0, prefill := true, table := [])
  }

  function Cores(q: seq<Row>): multiset<Row> {
    if q == [] then multiset{} else multiset{Core(q[0])} + Cores(q[1..])
  }

  ghost predicate From(c: Config, p: Pool, s: Row, s': Row)
    requires c.Valid()
  {
    && Core(s') == Core(s)
    && ((s'.cached == s.cached && s'.draft == s.draft && s.table <= s'.table)
        || (s'.draft == 0 && IsHit(c, p, s')))
  }

  ghost predicate AllFrom(c: Config, p: Pool, q: seq<Row>, q': seq<Row>)
    requires c.Valid()
  {
    forall s' :: s' in q' ==> exists s :: s in q && From(c, p, s, s')
  }

  ghost predicate Evolves(c: Config, p: Pool, q: seq<Row>, p': Pool, q': seq<Row>)
    requires c.Valid()
  {
    Shrinks(p, p') && Cores(q) == Cores(q') && AllFrom(c, p, q, q')
  }

  lemma {:induction false} CoresConcat(a: seq<Row>, b: seq<Row>)
    ensures Cores(a + b) == Cores(a) + Cores(b)
  {
    if a == [] {
      assert a + b == b;
    } else {
      assert (a + b)[1..] == a[1..] + b;
      CoresConcat(a[1..], b);
    }
  }

  lemma CoresCons(s: Row, a: seq<Row>)
    ensures Cores([s] + a) == multiset{Core(s)} + Cores(a)
  {
    assert ([s] + a)[1..] == a;
  }

  lemma {:induction false} CoresPerm(a: seq<Row>, b: seq<Row>)
    requires multiset(a) == multiset(b)
    ensures Cores(a) == Cores(b)
    decreases |a|
  {
    if a == [] {
      assert |multiset(b)| == 0;
    } else {
      var s := a[0];
      assert a == [s] + a[1..];
      assert s in multiset(b);
      var i := FindRow(b, s);
      var rest := b[..i] + b[i + 1..];
      assert multiset(a[1..]) == multiset(rest);
      CoresPerm(a[1..], rest);
      CoresAt(b, i);
    }
  }

  lemma CoresAt(b: seq<Row>, i: nat)
    requires i < |b|
    ensures Cores(b) == multiset{Core(b[i])} + Cores(b[..i] + b[i + 1..])
  {
    hide Core, Cores;
    assert b == b[..i] + ([b[i]] + b[i + 1..]);
    CoresConcat(b[..i], [b[i]] + b[i + 1..]);
    CoresCons(b[i], b[i + 1..]);
    CoresConcat(b[..i], b[i + 1..]);
  }

  lemma FromSelf(c: Config, p: Pool, s: Row)
    requires c.Valid()
    ensures From(c, p, s, s)
  {
  }

  lemma EvolvesPerm(c: Config, p: Pool, a: seq<Row>, b: seq<Row>)
    requires c.Valid() && Perm(a, b)
    ensures Evolves(c, p, a, p, b)
  {
    hide From;
    CoresPerm(a, b);
    forall s | s in b ensures exists s0 :: s0 in a && From(c, p, s0, s) {
      assert s in multiset(b);
      FromSelf(c, p, s);
    }
  }

  lemma IsHitMono(c: Config, p: Pool, p': Pool, s: Row)
    requires c.Valid() && Shrinks(p, p') && IsHit(c, p', s)
    ensures IsHit(c, p, s)
  {
    forall i: nat | i < s.cached / c.blockSize ensures Names(p, Chain(c, s.toks, i + 1), s.table[i]) {
      assert Names(p', Chain(c, s.toks, i + 1), s.table[i]);
    }
  }

  lemma FromTrans(c: Config, p: Pool, p': Pool, s: Row, s': Row, s'': Row)
    requires c.Valid() && Shrinks(p, p') && From(c, p, s, s') && From(c, p', s', s'')
    ensures From(c, p, s, s'')
  {
    if s''.draft == 0 && IsHit(c, p', s'') {
      IsHitMono(c, p, p', s'');
    } else if s'.draft == 0 && IsHit(c, p, s') {
      assert s''.toks == Core(s'').toks == s'.toks;
      forall i: nat | i < s''.cached / c.blockSize ensures Names(p, Chain(c, s''.toks, i + 1), s''.table[i]) {
        assert s''.table[i] == s'.table[i];
      }
    }
  }

  lemma EvolvesTrans(c: Config, p: Pool, q: seq<Row>, p': Pool, q': seq<Row>, p'': Pool, q'': seq<Row>)
    requires c.Valid() && Evolves(c, p, q, p', q') && Evolves(c, p', q', p'', q'')
    ensures Evolves(c, p, q, p'', q'')
  {
    hide From;
    forall s2 | s2 in q'' ensures exists s0 :: s0 in q && From(c, p, s0, s2) {
      var s1 :| s1 in q' && From(c, p', s1, s2);
      var s0 :| s0 in q && From(c, p, s0, s1);
      FromTrans(c, p, p', s0, s1, s2);
    }
  }

  lemma EvolvesOne(c: Config, p: Pool, p': Pool, s: Row, s': Row, a: seq<Row>)
    requires c.Valid() && Shrinks(p, p') && From(c, p, s, s')
    ensures Evolves(c, p, [s] + a, p', [s'] + a)
  {
    hide From, Shrinks;
    CoresCons(s, a);
    CoresCons(s', a);
    assert Core(s) == Core(s') by { FromCore(c, p, s, s'); }
    forall r | r in [s'] + a ensures exists r0 :: r0 in [s] + a && From(c, p, r0, r) {
      if r == s' {
        assert s in [s] + a;
      } else {
        FromSelf(c, p, r);
      }
    }
  }

  lemma FromCore(c: Config, p: Pool, s: Row, s': Row)
    requires c.Valid() && From(c, p, s, s')
    ensures Core(s) == Core(s')
  {
  }
}
