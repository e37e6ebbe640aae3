/** What the block manager does to one sequence: prefix lookup, admission,
    incremental allocation, growth, publication of full blocks and release. */
module Allocator {
  import opened Arith
  import opened Types
  import opened Pools

  /** Chain digest of the first k blocks of a token list. */
  function Chain(c: Config, toks: seq<Token>, k: nat): int
    requires c.Valid()
    decreases k
  {
    if k == 0 then NO_HASH
    else c.hash(Chain(c, toks, k - 1), BlockTokens(toks, k - 1, c.blockSize))
  }

  /** The cached blocks that match the sequence from block i on, up to the first
      miss or the limit; h is the digest of the blocks before i. */
  function Hits(c: Config, p: Pool, toks: seq<Token>, i: nat, limit: nat, h: int): seq<nat>
    requires c.Valid()
    decreases limit - i
  {
    if i >= limit then []
    else
      var blk := BlockTokens(toks, i, c.blockSize);
      var d := c.hash(h, blk);
      if d in p.index && p.index[d] < |p.blocks| && p.blocks[p.index[d]].toks == blk then
        [p.index[d]] + Hits(c, p, toks, i + 1, limit, d)
      else []
  }

  /** Whole-request admission: the number of cached blocks, or None. */
  function CanAllocate(c: Config, p: Pool, s: Row): Option<nat>
    requires c.Valid()
  {
    var n := s.NumBlocks(c.blockSize);
    var hits := Hits(c, p, s.toks, 0, if n == 0 then 0 else n - 1, NO_HASH);
    var shared := |hits| - CountOut(hits, p.used);
    if |p.free| < n - shared then None else Some(|hits|)
  }

  datatype AllocError =
    | TableNotEmpty | PrefixOutOfRange | CoverageOutOfRange | NothingBeyondPrefix
    | PrefixChanged | NotAllocated

  datatype AllocResult = Done(pool: Pool, row: Row) | NoRoom | Fail(error: AllocError)

  function AllocateIncremental(c: Config, p: Pool, s: Row, nc: nat, through: nat): AllocResult
    requires c.Valid()
  {
    var bs := c.blockSize;
    if s.table != [] then Fail(TableNotEmpty)
    else if nc >= s.NumBlocks(bs) then Fail(PrefixOutOfRange)
    else if !(1 <= through <= |s.toks|) then Fail(CoverageOutOfRange)
    else if CeilDiv(through, bs) <= nc then Fail(NothingBeyondPrefix)
    else
      var ids := Hits(c, p, s.toks, 0, nc, NO_HASH);
      if |ids| < nc then Fail(PrefixChanged)
      else if |p.free| < CeilDiv(through, bs) - nc + CountOut(ids, p.used) then NoRoom
      else
        var (p', t) := Grow(AttachAll(p, ids), ids, CeilDiv(through, bs) - nc);
        Done(p', s.(table := t, cached := nc * bs, draft := 0))
  }

  function Extend(c: Config, p: Pool, s: Row, through: nat): AllocResult
    requires c.Valid()
  {
    if s.table == [] then Fail(NotAllocated)
    else if !(1 <= through <= |s.toks|) then Fail(CoverageOutOfRange)
    else
      var required := CeilDiv(through, c.blockSize);
      if required <= |s.table| then Done(p, s)
      else if |p.free| < required - |s.table| then NoRoom
      else
        var (p', t) := Grow(p, s.table, required - |s.table|);
        Done(p', s.(table := t))
  }

  predicate CanAppend(c: Config, p: Pool, s: Row)
    requires c.Valid()
  {
    |p.free| >= if |s.toks| % c.blockSize == 1 then 1 else 0
  }

  function MayAppend(c: Config, p: Pool, s: Row): (Pool, Row)
    requires c.Valid()
  {
    if |s.toks| % c.blockSize == 1 then
      var (p', t) := Grow(p, s.table, 1);
      (p', s.(table := t))
    else (p, s)
  }

  function Cleared(s: Row): Row {
    s.(cached := 0, draft := 0, table := [])
  }

  /** Publish blocks i..end of the table; h is the digest of the blocks before i. */
  function HashFrom(c: Config, p: Pool, s: Row, i: nat, end: nat, h: int): Pool
    decreases end - i
  {
    if i >= end || i >= |s.table| then p
    else
      var blk := BlockTokens(s.toks, i, c.blockSize);
      var d := c.hash(h, blk);
      HashFrom(c, Publish(p, s.table[i], d, blk), s, i + 1, end, d)
  }

  /** Digest stored with the block before position `start` of the table. */
  function SeedHash(p: Pool, s: Row, start: nat): int {
    if 0 < start <= |s.table| && s.table[start - 1] < |p.blocks| then p.blocks[s.table[start - 1]].hash else NO_HASH
  }

  function HashBlocks(c: Config, p: Pool, s: Row): Pool
    requires c.Valid()
  {
    var start := s.cached / c.blockSize;
    var end := (s.cached + s.sched) / c.blockSize;
    if start == end then p else HashFrom(c, p, s, start, end, SeedHash(p, s, start))
  }

  /** Full blocks below position n. */
  function Full(c: Config, n: nat): nat
    requires c.Valid()
  {
    n / c.blockSize
  }

  lemma HashBlocksUnfolds(c: Config, p: Pool, s: Row)
    requires c.Valid()
    ensures HashBlocks(c, p, s) == HashFrom(c, p, s, Full(c, s.cached), Full(c, s.cached + s.sched), SeedHash(p, s, Full(c, s.cached)))
  {
    HashFromNone(c, p, s, s.cached / c.blockSize, SeedHash(p, s, s.cached / c.blockSize));
    hide SeedHash, HashFrom;
  }

  lemma HashFromNone(c: Config, p: Pool, s: Row, i: nat, h: int)
    ensures HashFrom(c, p, s, i, i, h) == p
  {
  }

  // ----- block contents -----

  /** The first k blocks of the table carry this token list's digests and tokens;
      every later block is fresh: unhashed, empty and referenced once. */
  ghost predicate ContentsTo(c: Config, p: Pool, toks: seq<Token>, table: seq<nat>, k: nat)
    requires c.Valid()
  {
    && (forall i :: 0 <= i < |table| ==> table[i] < |p.blocks|)
    && (forall i :: 0 <= i < |table| && i < k ==>
          && p.blocks[table[i]].hash == Chain(c, toks, i + 1)
          && p.blocks[table[i]].toks == BlockTokens(toks, i, c.blockSize))
    && (forall i :: k <= i < |table| ==> p.blocks[table[i]] == FRESH)
  }

  ghost predicate Contents(c: Config, p: Pool, s: Row)
    requires c.Valid()
  {
    && s.cached <= |s.toks|
    && s.cached / c.blockSize <= |s.table|
    && ContentsTo(c, p, s.toks, s.table, s.cached / c.blockSize)
  }

  ghost predicate Names(p: Pool, h: int, b: nat) {
    h in p.index && p.index[h] == b
  }

  /** The row's cached coverage is exactly a run of blocks the index knows. */
  ghost predicate IsHit(c: Config, p: Pool, s: Row)
    requires c.Valid()
  {
    && s.cached % c.blockSize == 0 && s.cached / c.blockSize <= |s.table|
    && forall i: nat :: i < s.cached / c.blockSize ==>
        Names(p, Chain(c, s.toks, i + 1), s.table[i])
  }

  lemma ChainIsDigest(c: Config, toks: seq<Token>, k: nat)
    requires c.Valid()
    ensures Chain(c, toks, k) >= NO_HASH && (k > 0 ==> Chain(c, toks, k) != NO_HASH)
  {
  }

  /** Digests and block tokens see only the blocks they cover. */
  lemma {:induction false} ChainOfPrefix(c: Config, a: seq<Token>, b: seq<Token>, k: nat)
    requires c.Valid() && k * c.blockSize <= |a| && k * c.blockSize <= |b|
    requires a[..k * c.blockSize] == b[..k * c.blockSize]
    ensures Chain(c, a, k) == Chain(c, b, k)
    ensures forall i: nat :: i < k ==> BlockTokens(a, i, c.blockSize) == BlockTokens(b, i, c.blockSize)
  {
    if k > 0 {
      var bs := c.blockSize;
      MulMono(k - 1, k, bs);
      assert a[..(k - 1) * bs] == a[..k * bs][..(k - 1) * bs];
      assert b[..(k - 1) * bs] == b[..k * bs][..(k - 1) * bs];
      ChainOfPrefix(c, a, b, k - 1);
      assert a[(k - 1) * bs..k * bs] == a[..k * bs][(k - 1) * bs..];
      assert b[(k - 1) * bs..k * bs] == b[..k * bs][(k - 1) * bs..];
    }
  }

  /** Appending tokens leaves the contents of the covered blocks as they were. */
  lemma ContentsAppend(c: Config, p: Pool, s: Row, more: seq<Token>)
    requires c.Valid() && Contents(c, p, s)
    ensures Contents(c, p, s.(toks := s.toks + more))
  {
    var bs := c.blockSize;
    var k := s.cached / bs;
    DivBounds(s.cached, bs);
    forall i: nat | i < k
      ensures Chain(c, s.toks, i + 1) == Chain(c, s.toks + more, i + 1)
      ensures BlockTokens(s.toks, i, bs) == BlockTokens(s.toks + more, i, bs)
    {
      MulMono(i + 1, k, bs);
      var n := (i + 1) * bs;
      assert s.toks[..n] == (s.toks + more)[..n];
      ChainOfPrefix(c, s.toks, s.toks + more, i + 1);
    }
  }

  /** A row whose blocks all lie in the untouched part keeps its contents. */
  lemma ContentsStable(c: Config, p: Pool, p': Pool, s: Row, m: multiset<nat>)
    requires c.Valid() && Contents(c, p, s) && Keeps(p, p', m) && multiset(s.table) <= m
    ensures Contents(c, p', s)
  {
    hide Chain, BlockTokens;
    forall i | 0 <= i < |s.table|
      ensures s.table[i] < |p'.blocks|
      ensures p'.blocks[s.table[i]].hash == p.blocks[s.table[i]].hash
      ensures p'.blocks[s.table[i]].toks == p.blocks[s.table[i]].toks
      ensures p.blocks[s.table[i]] == FRESH ==> p'.blocks[s.table[i]] == FRESH
    {
      assert s.table[i] in multiset(s.table);
    }
    hide Keeps;
  }

  lemma OccursTwice(table: seq<nat>, i: nat, j: nat)
    requires i < |table| && j < |table| && i != j && table[i] == table[j]
    ensures multiset(table)[table[i]] >= 2
  {
    var lo, hi := if i < j then i else j, if i < j then j else i;
    assert table == table[..lo] + [table[lo]] + table[lo + 1..hi] + [table[hi]] + table[hi + 1..];
  }

  /** A fresh block of a table occurs nowhere else. */
  lemma FreshExclusive(p: Pool, table: seq<nat>, i: nat, rest: multiset<nat>)
    requires Owned(p, rest + multiset(table)) && i < |table|
    requires table[i] < |p.blocks| && p.blocks[table[i]].refs == 1
    ensures table[i] !in rest
    ensures forall j :: 0 <= j < |table| && j != i ==> table[j] != table[i]
  {
    var b := table[i];
    assert b in multiset(table);
    assert (rest + multiset(table))[b] == 1;
    forall j | 0 <= j < |table| && j != i ensures table[j] != b {
      if table[j] == b { OccursTwice(table, i, j); }
    }
  }

  // ----- publication -----

  lemma PublishNext(c: Config, p: Pool, s: Row, i: nat, rest: multiset<nat>)
    requires c.Valid() && Wf(p) && Owned(p, rest + multiset(s.table))
    requires i < |s.table| && ContentsTo(c, p, s.toks, s.table, i)
    ensures var q := Publish(p, s.table[i], Chain(c, s.toks, i + 1), BlockTokens(s.toks, i, c.blockSize));
      && Wf(q) && Owned(q, rest + multiset(s.table)) && Keeps(p, q, rest)
      && ContentsTo(c, q, s.toks, s.table, i + 1)
  {
    var blk := BlockTokens(s.toks, i, c.blockSize);
    FreshExclusive(p, s.table, i, rest);
    PublishKeeps(p, s.table[i], Chain(c, s.toks, i + 1), blk, rest);
  }

  lemma {:induction false} HashFromKeeps(c: Config, p: Pool, s: Row, i: nat, end: nat, h: int, rest: multiset<nat>)
    requires c.Valid() && Wf(p) && Owned(p, rest + multiset(s.table))
    requires i <= end <= |s.table| && ContentsTo(c, p, s.toks, s.table, i) && h == Chain(c, s.toks, i)
    ensures var q := HashFrom(c, p, s, i, end, h);
      && Wf(q) && Owned(q, rest + multiset(s.table)) && Keeps(p, q, rest)
      && ContentsTo(c, q, s.toks, s.table, end)
      && q.free == p.free && q.used == p.used
    decreases end - i
  {
    hide Wf, Owned, Keeps, ContentsTo, Publish, BlockTokens;
    if i < end {
      var d := Chain(c, s.toks, i + 1);
      PublishNext(c, p, s, i, rest);
      var p1 := Publish(p, s.table[i], d, BlockTokens(s.toks, i, c.blockSize));
      PublishLists(p, s.table[i], d, BlockTokens(s.toks, i, c.blockSize));
      HashFromKeeps(c, p1, s, i + 1, end, d, rest);
      KeepsTrans(p, p1, HashFrom(c, p1, s, i + 1, end, d), rest);
    } else {
      KeepsSelf(p, rest);
    }
  }

  lemma SeedIsChain(c: Config, p: Pool, s: Row)
    requires c.Valid() && Contents(c, p, s)
    ensures SeedHash(p, s, s.cached / c.blockSize) == Chain(c, s.toks, s.cached / c.blockSize)
  {
  }

  lemma CoveredBlocks(cached: nat, sched: nat, n: nat, bs: nat)
    requires bs >= 1 && CeilDiv(cached + sched, bs) <= n
    ensures cached / bs <= (cached + sched) / bs <= n
  {
    DivMono(cached, cached + sched, bs);
    FloorCeil(cached + sched, bs);
  }

  /** Publishing the blocks covered by the processed tokens advances exactly the
      coverage of this row and touches no block of any other. */
  lemma HashBlocksKeeps(c: Config, p: Pool, s: Row, rest: multiset<nat>)
    requires c.Valid() && Wf(p) && Owned(p, rest + multiset(s.table)) && Contents(c, p, s)
    requires s.cached + s.sched <= |s.toks| && CeilDiv(s.cached + s.sched, c.blockSize) <= |s.table|
    ensures var q := HashBlocks(c, p, s);
      && Wf(q) && Owned(q, rest + multiset(s.table)) && Keeps(p, q, rest)
      && Contents(c, q, s.(cached := s.cached + s.sched))
      && q.free == p.free && q.used == p.used
  {
    hide Wf, Owned, Keeps, HashFrom, ContentsTo, SeedHash, Chain, CeilDiv;
    KeepsSelf(p, rest);
    CoveredBlocks(s.cached, s.sched, |s.table|, c.blockSize);
    SeedIsChain(c, p, s);
    HashFromKeeps(c, p, s, s.cached / c.blockSize, (s.cached + s.sched) / c.blockSize, Chain(c, s.toks, s.cached / c.blockSize), rest);
  }

  // ----- growth -----

  lemma GrowNone(p: Pool, table: seq<nat>)
    ensures Grow(p, table, 0) == (p, table)
  {
  }

  lemma ContentsGrown(c: Config, q: Pool, s: Row, more: seq<nat>)
    requires c.Valid() && Contents(c, q, s)
    requires forall b :: b in more ==> b < |q.blocks| && q.blocks[b] == FRESH
    ensures Contents(c, q, s.(table := s.table + more))
  {
    var t := s.table + more;
    forall i | |s.table| <= i < |t| ensures t[i] < |q.blocks| && q.blocks[t[i]] == FRESH {
      assert t[i] == more[i - |s.table|];
      assert more[i - |s.table|] in more;
    }
  }

  lemma GrowShrinks(p: Pool, table: seq<nat>, n: nat, m: multiset<nat>)
    requires Wf(p) && Owned(p, m) && n <= |p.free|
    ensures Shrinks(p, Grow(p, table, n).0)
  {
    hide Owned, FreeList, IndexAgrees, Grow;
    GrowMeta(p, table, n, m);
  }

  lemma TakenAreFresh(p: Pool, table: seq<nat>, n: nat, m: multiset<nat>)
    requires Wf(p) && Owned(p, m) && n <= |p.free|
    ensures var q := Grow(p, table, n).0;
      forall b :: b in p.free[..n] ==> b < |q.blocks| && q.blocks[b] == FRESH
  {
    hide Owned, IndexAgrees, Grow;
    GrowMeta(p, table, n, m);
    forall b | b in p.free[..n] ensures b < |p.blocks| {
      assert b in p.free;
    }
  }

  /** Appending n blocks to a table whose owner is one of the owners. */
  lemma GrowRow(c: Config, p: Pool, s: Row, n: nat, rest: multiset<nat>)
    requires c.Valid() && Wf(p) && Owned(p, rest + multiset(s.table)) && Contents(c, p, s) && n <= |p.free|
    ensures var (q, t) := Grow(p, s.table, n);
      && t == s.table + p.free[..n] && q.free == p.free[n..]
      && Wf(q) && Owned(q, rest + multiset(t)) && Keeps(p, q, rest)
      && Contents(c, q, s.(table := t)) && Shrinks(p, q)
  {
    var m := rest + multiset(s.table);
    var (q, t) := Grow(p, s.table, n);
    forall i | 0 <= i < n ensures p.free[i] < |p.blocks| { assert p.free[i] in p.free; }
    hide Owned, FreeList, IndexAgrees, Grow, Keeps, Contents;
    GrowShape(p, s.table, n);
    GrowKeeps(p, s.table, n, m);
    GrowShrinks(p, s.table, n, m);
    assert m + multiset(p.free[..n]) == rest + multiset(t);
    KeepsLess(p, q, m, rest);
    ContentsStable(c, p, q, s, m);
    TakenAreFresh(p, s.table, n, m);
    ContentsGrown(c, q, s, p.free[..n]);
  }

  // ----- admission -----

  lemma ChainNext(c: Config, toks: seq<Token>, i: nat)
    requires c.Valid()
    ensures Chain(c, toks, i + 1) == c.hash(Chain(c, toks, i), BlockTokens(toks, i, c.blockSize))
  {
  }

  lemma ChainZero(c: Config, x: seq<Token>)
    requires c.Valid()
    ensures Chain(c, x, 0) == NO_HASH
  {
  }

  /** Block b is a cached copy of block i of the sequence. */
  ghost predicate HitAt(c: Config, p: Pool, toks: seq<Token>, i: nat, b: nat)
    requires c.Valid()
  {
    && b < |p.blocks|
    && p.blocks[b].hash == Chain(c, toks, i + 1)
    && p.blocks[b].toks == BlockTokens(toks, i, c.blockSize)
    && Names(p, Chain(c, toks, i + 1), b)
  }

  lemma {:induction false} HitsAre(c: Config, p: Pool, toks: seq<Token>, i: nat, limit: nat, h: int)
    requires c.Valid() && IndexAgrees(p) && h == Chain(c, toks, i)
    ensures var hits := Hits(c, p, toks, i, limit, h);
      && |hits| <= (if limit >= i then limit - i else 0)
      && forall k :: 0 <= k < |hits| ==> HitAt(c, p, toks, i + k, hits[k])
    decreases limit - i
  {
    hide BlockTokens, Chain, IndexAgrees;
    if i < limit {
      ChainNext(c, toks, i);
      var d := Chain(c, toks, i + 1);
      var hits := Hits(c, p, toks, i, limit, h);
      if hits != [] {
        IndexEntry(p, d);
        HitsAre(c, p, toks, i + 1, limit, d);
        var tail := Hits(c, p, toks, i + 1, limit, d);
        forall k | 0 <= k < |hits| ensures HitAt(c, p, toks, i + k, hits[k]) {
          if k > 0 { assert hits[k] == tail[k - 1] && HitAt(c, p, toks, i + 1 + (k - 1), tail[k - 1]); }
        }
      }
    }
  }

  lemma IndexEntry(p: Pool, h: int)
    requires IndexAgrees(p) && h in p.index
    ensures p.index[h] < |p.blocks| && p.blocks[p.index[h]].hash == h
  {
  }

  /** Looking up exactly the hits again finds the same blocks. */
  lemma {:induction false} HitsAgain(c: Config, p: Pool, toks: seq<Token>, i: nat, limit: nat, h: int)
    requires c.Valid()
    ensures Hits(c, p, toks, i, i + |Hits(c, p, toks, i, limit, h)|, h) == Hits(c, p, toks, i, limit, h)
    decreases limit - i
  {
    var hits := Hits(c, p, toks, i, limit, h);
    if i < limit && hits != [] {
      var d := c.hash(h, BlockTokens(toks, i, c.blockSize));
      HitsAgain(c, p, toks, i + 1, limit, d);
      assert i + |hits| == i + 1 + |Hits(c, p, toks, i + 1, limit, d)|;
    }
  }

  lemma HitsFormHit(c: Config, p: Pool, s: Row, ids: seq<nat>)
    requires c.Valid() && IndexAgrees(p) && ids == Hits(c, p, s.toks, 0, |ids|, NO_HASH)
    ensures IsHit(c, p, s.(table := ids, cached := |ids| * c.blockSize, draft := 0))
  {
    hide IndexAgrees, Hits, BlockTokens;
    HitsAre(c, p, s.toks, 0, |ids|, NO_HASH);
    var r := s.(table := ids, cached := |ids| * c.blockSize, draft := 0);
    CeilOfMultiple(|ids|, 0, c.blockSize);
    DivBounds(r.cached, c.blockSize);
    forall i: nat | i < r.cached / c.blockSize
      ensures Names(p, Chain(c, r.toks, i + 1), r.table[i])
    {
      assert Hits(c, p, s.toks, 0, |ids|, NO_HASH)[i] == ids[i];
    }
  }

  lemma HitGrown(c: Config, p: Pool, s: Row, more: seq<nat>)
    requires c.Valid() && IsHit(c, p, s)
    ensures IsHit(c, p, s.(table := s.table + more))
  {
    var r := s.(table := s.table + more);
    forall i: nat | i < r.cached / c.blockSize
      ensures Names(p, Chain(c, r.toks, i + 1), r.table[i])
    {
      assert r.table[i] == s.table[i];
    }
  }

  /** Pinning the hits gives a row that owns exactly its cached prefix. */
  lemma AttachHits(c: Config, p: Pool, s: Row, ids: seq<nat>, rest: multiset<nat>)
    requires c.Valid() && Wf(p) && Owned(p, rest) && |ids| * c.blockSize <= |s.toks|
    requires ids == Hits(c, p, s.toks, 0, |ids|, NO_HASH)
    ensures var q := AttachAll(p, ids);
      && Wf(q) && Owned(q, rest + multiset(ids)) && Keeps(p, q, rest)
      && |q.free| >= |p.free| - CountOut(ids, p.used) && q.index == p.index
      && Contents(c, q, s.(table := ids, cached := |ids| * c.blockSize, draft := 0))
      && IsHit(c, p, s.(table := ids, cached := |ids| * c.blockSize, draft := 0))
  {
    hide Owned, Keeps, FreeList, IndexAgrees, AttachAll, Hits, CountOut;
    HitsAre(c, p, s.toks, 0, |ids|, NO_HASH);
    forall b | b in ids ensures b < |p.blocks| && p.blocks[b].hash != NO_HASH {
      var k :| 0 <= k < |ids| && ids[k] == b;
      ChainIsDigest(c, s.toks, k + 1);
    }
    AttachAllKeeps(p, ids, rest);
    HitsFormHit(c, p, s, ids);
    hide IsHit;
    assert (|ids| * c.blockSize) / c.blockSize == |ids| by {
      CeilOfMultiple(|ids|, 0, c.blockSize);
    }
  }

  lemma AdmissionBounds(c: Config, p: Pool, s: Row, through: nat)
    requires c.Valid() && IndexAgrees(p) && CanAllocate(c, p, s).Some?
    requires CanAllocate(c, p, s).value * c.blockSize < through <= |s.toks|
    ensures var nc := CanAllocate(c, p, s).value;
      var ids := Hits(c, p, s.toks, 0, nc, NO_HASH);
      && |ids| == nc < s.NumBlocks(c.blockSize)
      && nc < CeilDiv(through, c.blockSize) <= s.NumBlocks(c.blockSize)
      && |p.free| >= CeilDiv(through, c.blockSize) - nc + CountOut(ids, p.used)
  {
    var bs := c.blockSize;
    var n := s.NumBlocks(bs);
    var limit := if n == 0 then 0 else n - 1;
    HitsAre(c, p, s.toks, 0, limit, NO_HASH);
    HitsAgain(c, p, s.toks, 0, limit, NO_HASH);
    var nc := CanAllocate(c, p, s).value;
    CeilMono(through, |s.toks|, bs);
    CeilMono(nc * bs + 1, through, bs);
    CeilOfMultiple(nc, 1, bs);
    CeilIs(1, bs, 1);
    CountOutMono(Hits(c, p, s.toks, 0, nc, NO_HASH), p.used, p.used);
  }

  /** Admission is sound: once the whole request is admitted, every scheduled
      prefix beyond the hits is attached in full. No guard of the allocation can
      fire, and the row it returns owns correct contents. */
  lemma AdmissionSound(c: Config, p: Pool, s: Row, through: nat, rest: multiset<nat>)
    requires c.Valid() && Wf(p) && Owned(p, rest) && s.table == []
    requires CanAllocate(c, p, s).Some?
    requires CanAllocate(c, p, s).value * c.blockSize < through <= |s.toks|
    ensures var nc := CanAllocate(c, p, s).value;
      var r := AllocateIncremental(c, p, s, nc, through);
      && r.Done? && r.row == s.(table := r.row.table, cached := nc * c.blockSize, draft := 0)
      && |r.row.table| == CeilDiv(through, c.blockSize)
      && Wf(r.pool) && Owned(r.pool, rest + multiset(r.row.table))
      && Keeps(p, r.pool, rest) && Contents(c, r.pool, r.row)
      && Shrinks(p, r.pool) && IsHit(c, p, r.row)
  {
    hide Owned, Keeps, Contents, Grow, AttachAll, Hits, CanAllocate, FreeList, IndexAgrees;
    var nc := CanAllocate(c, p, s).value;
    AdmissionBounds(c, p, s, through);
    var ids := Hits(c, p, s.toks, 0, nc, NO_HASH);
    AttachHits(c, p, s, ids, rest);
    hide IsHit, Config.Valid, Row.NumBlocks;
    var p1 := AttachAll(p, ids);
    var extra := CeilDiv(through, c.blockSize) - nc;
    GrowRow(c, p1, s.(table := ids, cached := nc * c.blockSize, draft := 0), extra, rest);
    var (p2, t) := Grow(p1, ids, extra);
    KeepsTrans(p, p1, p2, rest);
    HitGrown(c, p, s.(table := ids, cached := nc * c.blockSize, draft := 0), p1.free[..extra]);
  }

  /** With every block free, a request that fits the pool is admitted. */
  lemma EmptyPoolAdmits(c: Config, p: Pool, s: Row)
    requires c.Valid() && Wf(p) && Owned(p, multiset{}) && s.NumBlocks(c.blockSize) <= |p.blocks|
    ensures CanAllocate(c, p, s).Some?
  {
    FreeBesides(p, []);
    var n := s.NumBlocks(c.blockSize);
    CountOutMono(Hits(c, p, s.toks, 0, if n == 0 then 0 else n - 1, NO_HASH), p.used, p.used);
  }

  lemma ExtendKeeps(c: Config, p: Pool, s: Row, through: nat, rest: multiset<nat>)
    requires c.Valid() && Wf(p) && Owned(p, rest + multiset(s.table)) && Contents(c, p, s)
    requires s.table != [] && s.cached < through <= |s.toks| && |s.table| == CeilDiv(s.cached, c.blockSize)
    ensures var r := Extend(c, p, s, through);
      && !r.Fail?
      && (r.NoRoom? <==> |p.free| < CeilDiv(through, c.blockSize) - |s.table|)
      && (r.Done? ==>
            && r.row == s.(table := r.row.table)
            && |r.row.table| == CeilDiv(through, c.blockSize)
            && Wf(r.pool) && Owned(r.pool, rest + multiset(r.row.table))
            && Keeps(p, r.pool, rest) && Contents(c, r.pool, r.row)
            && Shrinks(p, r.pool) && s.table <= r.row.table)
  {
    hide Owned, Keeps, FreeList, IndexAgrees, Grow, Contents;
    KeepsSelf(p, rest);
    CeilMono(s.cached, through, c.blockSize);
    var n := CeilDiv(through, c.blockSize) - |s.table|;
    if n == 0 {
    } else if n <= |p.free| {
      GrowRow(c, p, s, n, rest);
    }
  }

  /** A decoding row grows by exactly the block its next position needs. */
  lemma MayAppendKeeps(c: Config, p: Pool, s: Row, rest: multiset<nat>)
    requires c.Valid() && Wf(p) && Owned(p, rest + multiset(s.table)) && Contents(c, p, s)
    requires CanAppend(c, p, s) && |s.toks| == s.cached + 1 && |s.table| == CeilDiv(s.cached, c.blockSize)
    ensures var (q, r) := MayAppend(c, p, s);
      var n := |r.table| - |s.table|;
      && r == s.(table := s.table + p.free[..n]) && 0 <= n <= 1 && n <= |p.free| && q.free == p.free[n..]
      && |r.table| == CeilDiv(|s.toks|, c.blockSize)
      && Wf(q) && Owned(q, rest + multiset(r.table)) && Keeps(p, q, rest) && Contents(c, q, r)
      && Shrinks(p, q)
  {
    hide Wf, Owned, Keeps, Contents, Grow;
    AppendTest(s.cached, c.blockSize);
    var n := if |s.toks| % c.blockSize == 1 then 1 else 0;
    GrowRow(c, p, s, n, rest);
    assert MayAppend(c, p, s) == (Grow(p, s.table, n).0, s.(table := Grow(p, s.table, n).1)) by {
      GrowNone(p, s.table);
    }
  }
}
