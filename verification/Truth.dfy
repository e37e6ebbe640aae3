/** What the physical cache slots hold. A slot of the target (or draft) cache is
    described by the token prefix whose last position was computed into it. */
module Truth {
  import opened Arith
  import opened Types
  import opened Pools
  import opened Allocator
  import opened Queues
  import opened Evolution
  import opened States

  /** Slot (block, offset) to the prefix stored there. */
  type Cache = map<(nat, nat), seq<Token>>

  function At(kv: Cache, b: nat, j: nat): seq<Token> {
    if (b, j) in kv then kv[(b, j)] else []
  }

  /** The logical position held at offset j of the i-th block of a table. */
  function Pos(bs: nat, i: nat, j: nat): nat {
    i * bs + j
  }

  function Prefix(toks: seq<Token>, n: nat): seq<Token> {
    toks[..if n <= |toks| then n else |toks|]
  }

  /** Positions below n of this table hold exactly this token list's prefixes. */
  ghost predicate TrueTo(bs: nat, kv: Cache, table: seq<nat>, toks: seq<Token>, n: nat) {
    forall i: nat, j: nat :: i < |table| && j < bs && Pos(bs, i, j) < n ==>
      At(kv, table[i], j) == Prefix(toks, Pos(bs, i, j) + 1)
  }

  ghost predicate BlockTrue(bs: nat, kv: Cache, b: nat, k: nat, toks: seq<Token>) {
    forall j: nat :: j < bs ==> At(kv, b, j) == Prefix(toks, Pos(bs, k, j) + 1)
  }

  /** Every index entry that is the digest of k + 1 full blocks names a block that
      holds the cache contents of the last of them. */
  ghost predicate IndexTrue(c: Config, p: Pool, kv: Cache)
    requires c.Valid()
  {
    forall toks: seq<Token>, k: nat, b: nat ::
      (k + 1) * c.blockSize <= |toks| && Names(p, Chain(c, toks, k + 1), b) ==> BlockTrue(c.blockSize, kv, b, k, toks)
  }

  ghost predicate RowTrue(c: Config, kv: Cache, dkv: Cache, s: Row) {
    && TrueTo(c.blockSize, kv, s.table, s.toks, s.cached)
    && TrueTo(c.blockSize, dkv, s.table, s.toks, s.draft)
  }

  ghost predicate AllTrue(c: Config, kv: Cache, dkv: Cache, q: seq<Row>) {
    forall s :: s in q ==> RowTrue(c, kv, dkv, s)
  }

  ghost predicate Truthful(c: Config, p: Pool, q: seq<Row>, kv: Cache, dkv: Cache)
    requires c.Valid()
  {
    IndexTrue(c, p, kv) && AllTrue(c, kv, dkv, q)
  }

  /** Distinct block chains have distinct digests. */
  ghost predicate Injective(c: Config) {
    forall a: int, x: seq<Token>, b: int, y: seq<Token> ::
      a >= NO_HASH && b >= NO_HASH && c.hash(a, x) == c.hash(b, y) ==> a == b && x == y
  }

  // ----- digests determine prefixes -----

  lemma PrefixStep(x: seq<Token>, k: nat, bs: nat)
    requires k > 0 && k * bs <= |x|
    ensures (k - 1) * bs <= |x| && x[..k * bs] == x[..(k - 1) * bs] + BlockTokens(x, k - 1, bs)
  {
    MulMono(k - 1, k, bs);
  }

  lemma {:induction false} ChainInjective(c: Config, x: seq<Token>, y: seq<Token>, k: nat, l: nat)
    requires c.Valid() && Injective(c) && k * c.blockSize <= |x| && l * c.blockSize <= |y|
    requires Chain(c, x, k) == Chain(c, y, l)
    ensures k == l && x[..k * c.blockSize] == y[..k * c.blockSize]
    decreases k
  {
    hide Chain, BlockTokens;
    if k > 0 && l > 0 {
      ChainNext(c, x, k - 1);
      ChainNext(c, y, l - 1);
      ChainIsDigest(c, x, k - 1);
      ChainIsDigest(c, y, l - 1);
      PrefixStep(x, k, c.blockSize);
      PrefixStep(y, l, c.blockSize);
      ChainInjective(c, x, y, k - 1, l - 1);
    } else {
      ChainIsDigest(c, x, k);
      ChainIsDigest(c, y, l);
      ChainZero(c, x);
      ChainZero(c, y);
    }
  }

  // ----- scheduling -----

  lemma TrueMore(bs: nat, kv: Cache, t: seq<nat>, more: seq<nat>, toks: seq<Token>, n: nat)
    requires bs >= 1 && TrueTo(bs, kv, t, toks, n) && n <= |t| * bs
    ensures TrueTo(bs, kv, t + more, toks, n)
  {
    forall i: nat, j: nat | i < |t + more| && j < bs && Pos(bs, i, j) < n
      ensures At(kv, (t + more)[i], j) == Prefix(toks, Pos(bs, i, j) + 1)
    {
      if i >= |t| { MulMono(|t|, i, bs); }
      assert (t + more)[i] == t[i];
    }
  }

  /** A row attached to indexed blocks holds true contents. */
  lemma HitIsTrue(c: Config, p: Pool, kv: Cache, s: Row)
    requires c.Valid() && IndexTrue(c, p, kv) && IsHit(c, p, s) && s.cached <= |s.toks|
    ensures TrueTo(c.blockSize, kv, s.table, s.toks, s.cached)
  {
    var bs := c.blockSize;
    DivBounds(s.cached, bs);
    hide Chain;
    forall i: nat, j: nat | i < |s.table| && j < bs && Pos(bs, i, j) < s.cached
      ensures At(kv, s.table[i], j) == Prefix(s.toks, Pos(bs, i, j) + 1)
    {
      if i >= s.cached / bs { MulMono(s.cached / bs, i, bs); }
      MulMono(i + 1, s.cached / bs, bs);
      assert Names(p, Chain(c, s.toks, i + 1), s.table[i]);
      assert BlockTrue(bs, kv, s.table[i], i, s.toks);
    }
  }

  lemma FromTrue(c: Config, p: Pool, kv: Cache, dkv: Cache, s: Row, s': Row)
    requires c.Valid() && IndexTrue(c, p, kv) && From(c, p, s, s') && RowTrue(c, kv, dkv, s)
    requires s.cached <= |s.table| * c.blockSize && s.draft <= s.cached && s'.cached <= |s'.toks|
    ensures RowTrue(c, kv, dkv, s')
  {
    assert s'.toks == Core(s').toks == Core(s).toks == s.toks;
    hide Core;
    if s'.draft == 0 && IsHit(c, p, s') {
      HitIsTrue(c, p, kv, s');
    } else {
      var more := s'.table[|s.table|..];
      assert s'.table == s.table + more;
      TrueMore(c.blockSize, kv, s.table, more, s.toks, s.cached);
      TrueMore(c.blockSize, dkv, s.table, more, s.toks, s.draft);
    }
  }

  lemma IndexShrinks(c: Config, p: Pool, p': Pool, kv: Cache)
    requires c.Valid() && IndexTrue(c, p, kv) && Shrinks(p, p')
    ensures IndexTrue(c, p', kv)
  {
    hide BlockTrue;
    forall toks: seq<Token>, k: nat, b: nat | (k + 1) * c.blockSize <= |toks| && Names(p', Chain(c, toks, k + 1), b)
      ensures BlockTrue(c.blockSize, kv, b, k, toks)
    {
      assert Names(p, Chain(c, toks, k + 1), b);
    }
  }

  lemma CoversCached(c: Config, p: Pool, s: Row)
    requires c.Valid() && RowOk(c, p, s)
    ensures s.cached <= |s.table| * c.blockSize && s.draft <= s.cached <= |s.toks|
  {
    CeilBounds(s.cached + s.sched, c.blockSize);
  }

  /** Scheduling writes nothing, so it keeps the caches truthful: rows that were
      matched against the prefix index own the blocks of exactly their prefix. */
  lemma ScheduleTruthful(c: Config, p: Pool, q: seq<Row>, p': Pool, q': seq<Row>, kv: Cache, dkv: Cache)
    requires c.Valid() && Held(c, p, q) && Held(c, p', q') && Evolves(c, p, q, p', q')
    requires Truthful(c, p, q, kv, dkv)
    ensures Truthful(c, p', q', kv, dkv)
  {
    hide Wf, Owned, From, RowTrue, RowOk;
    IndexShrinks(c, p, p', kv);
    hide IndexTrue, Shrinks;
    forall s' | s' in q' ensures RowTrue(c, kv, dkv, s') {
      var s :| s in q && From(c, p, s, s');
      HeldMember(c, p, q, s);
      HeldMember(c, p', q', s');
      CoversCached(c, p, s);
      CoversCached(c, p', s');
      FromTrue(c, p, kv, dkv, s, s');
    }
  }

  // ----- writes -----

  /** A slot that some row may write: one of its positions at or past its coverage. */
  ghost predicate Writable(bs: nat, q: seq<Row>, b: nat, j: nat) {
    exists r, i: nat :: r in q && i < |r.table| && r.table[i] == b && Pos(bs, i, j) >= r.cached
  }

  /** Only slots of uncovered positions changed; what was written there is arbitrary. */
  ghost predicate Scribble(bs: nat, kv: Cache, kv': Cache, q: seq<Row>) {
    forall b: nat, j: nat :: At(kv', b, j) == At(kv, b, j) || (j < bs && Writable(bs, q, b, j))
  }

  /** The allocator facts behind write isolation, for tables of any length. */
  ghost predicate Isolated(c: Config, p: Pool, q: seq<Row>)
    requires c.Valid()
  {
    && Wf(p) && Owned(p, Owners(q)) && (forall s :: s in q ==> Contents(c, p, s))
  }

  lemma HeldIsolated(c: Config, p: Pool, q: seq<Row>)
    requires c.Valid() && Held(c, p, q)
    ensures Isolated(c, p, q)
  {
    hide Wf, Owned, Contents;
    forall s | s in q ensures Contents(c, p, s) { HeldMember(c, p, q, s); }
  }

  /** A block at or past a row's coverage is fresh, so it occurs once among all rows. */
  lemma TailBlock(c: Config, p: Pool, q: seq<Row>, r: Row, i: nat)
    requires c.Valid() && Isolated(c, p, q) && r in q && i < |r.table| && i >= r.cached / c.blockSize
    ensures r.table[i] < |p.blocks| && p.blocks[r.table[i]] == FRESH && Owners(q)[r.table[i]] == 1
  {
    hide IndexAgrees, FreeList;
    var k := FindRow(q, r);
    assert r.table[i] in multiset(r.table);
  }

  /** A block that occurs once is not another row's block, nor another of this row. */
  lemma OnlyHere(q: seq<Row>, r: Row, i: nat, s: Row, l: nat)
    requires r in q && s in q && i < |r.table| && l < |s.table| && r.table[i] == s.table[l]
    requires Owners(q)[r.table[i]] == 1
    ensures r.table == s.table && i == l && r == s
  {
    var b := r.table[i];
    assert b in multiset(r.table) && b in multiset(s.table);
    var k := FindRow(q, r);
    if i != l && r == s { OccursTwice(r.table, i, l); }
    if r != s {
      var rest := q[..k] + q[k + 1..];
      assert s in multiset(q) - multiset{r};
      assert s in multiset(rest);
      var m := FindRow(rest, s);
    }
  }

  /** A slot below a row's coverage is never writable by any row. */
  lemma CoveredNotWritable(c: Config, p: Pool, q: seq<Row>, s: Row, i: nat, j: nat)
    requires c.Valid() && Isolated(c, p, q) && s in q && i < |s.table| && j < c.blockSize
    requires Pos(c.blockSize, i, j) < s.cached
    ensures !Writable(c.blockSize, q, s.table[i], j)
  {
    hide Isolated;
    var bs := c.blockSize;
    forall r, l: nat | r in q && l < |r.table| && r.table[l] == s.table[i] && Pos(bs, l, j) >= r.cached ensures false {
      WriteIsTail(r, l, j, bs);
      TailBlock(c, p, q, r, l);
      OnlyHere(q, r, l, s, i);
    }
  }

  lemma WriteIsTail(r: Row, l: nat, j: nat, bs: nat)
    requires bs >= 1 && j < bs && Pos(bs, l, j) >= r.cached
    ensures l >= r.cached / bs
  {
    DivBounds(r.cached, bs);
    if l < r.cached / bs { MulMono(l + 1, r.cached / bs, bs); }
  }

  /** No indexed block is ever writable. */
  lemma NamedNotWritable(c: Config, p: Pool, q: seq<Row>, h: int, b: nat, j: nat)
    requires c.Valid() && Isolated(c, p, q) && Names(p, h, b) && j < c.blockSize
    ensures !Writable(c.blockSize, q, b, j)
  {
    assert p.blocks[b].hash == h && h != NO_HASH;
    hide Isolated;
    forall r, l: nat | r in q && l < |r.table| && r.table[l] == b && Pos(c.blockSize, l, j) >= r.cached ensures false {
      WriteIsTail(r, l, j, c.blockSize);
      TailBlock(c, p, q, r, l);
    }
  }

  lemma ScribbleKeepsTrue(c: Config, p: Pool, q: seq<Row>, kv: Cache, kv': Cache, s: Row, n: nat)
    requires c.Valid() && Isolated(c, p, q) && Scribble(c.blockSize, kv, kv', q) && s in q && n <= s.cached
    requires TrueTo(c.blockSize, kv, s.table, s.toks, n)
    ensures TrueTo(c.blockSize, kv', s.table, s.toks, n)
  {
    hide Isolated, Writable;
    var bs := c.blockSize;
    forall i: nat, j: nat | i < |s.table| && j < bs && Pos(bs, i, j) < n
      ensures At(kv', s.table[i], j) == Prefix(s.toks, Pos(bs, i, j) + 1)
    {
      CoveredNotWritable(c, p, q, s, i, j);
      assert At(kv', s.table[i], j) == At(kv, s.table[i], j);
    }
  }

  lemma ScribbleKeepsIndex(c: Config, p: Pool, q: seq<Row>, kv: Cache, kv': Cache)
    requires c.Valid() && Isolated(c, p, q) && Scribble(c.blockSize, kv, kv', q) && IndexTrue(c, p, kv)
    ensures IndexTrue(c, p, kv')
  {
    hide Isolated, Writable, Names;
    forall toks: seq<Token>, k: nat, b: nat | (k + 1) * c.blockSize <= |toks| && Names(p, Chain(c, toks, k + 1), b)
      ensures BlockTrue(c.blockSize, kv', b, k, toks)
    {
      assert BlockTrue(c.blockSize, kv, b, k, toks);
      forall j: nat | j < c.blockSize ensures At(kv', b, j) == Prefix(toks, Pos(c.blockSize, k, j) + 1) {
        NamedNotWritable(c, p, q, Chain(c, toks, k + 1), b, j);
        assert At(kv', b, j) == At(kv, b, j);
      }
    }
  }

  /** Write isolation: whatever the scheduled rows write at uncovered positions, no
      covered position of any row and no indexed block changes. */
  lemma WriteIsolation(c: Config, p: Pool, q: seq<Row>, kv: Cache, kv': Cache, dkv: Cache)
    requires c.Valid() && Isolated(c, p, q) && Truthful(c, p, q, kv, dkv) && Scribble(c.blockSize, kv, kv', q)
    ensures Truthful(c, p, q, kv', dkv)
  {
    ScribbleKeepsIndex(c, p, q, kv, kv');
    hide Isolated, IndexTrue, Scribble, TrueTo;
    forall s | s in q ensures RowTrue(c, kv', dkv, s) {
      assert RowTrue(c, kv, dkv, s);
      ScribbleKeepsTrue(c, p, q, kv, kv', s, s.cached);
    }
  }
}
