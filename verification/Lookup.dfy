/** The prefix index from the outside: what a lookup finds, what a publication records,
    and the order in which released blocks can be reused. */
module Lookup {
  import opened Arith
  import opened Types
  import opened Pools
  import opened Allocator
  import opened Leases

  // ----- the admission lookup -----

  /** Block i of the token list is cached in block b: the index knows its digest, and the
      block it names holds its tokens. */
  ghost predicate CachedIn(c: Config, p: Pool, toks: seq<Token>, i: nat, b: nat)
    requires c.Valid()
  {
    Names(p, Chain(c, toks, i + 1), b) && b < |p.blocks| && p.blocks[b].toks == BlockTokens(toks, i, c.blockSize)
  }

  ghost predicate Cached(c: Config, p: Pool, toks: seq<Token>, i: nat)
    requires c.Valid()
  {
    exists b :: CachedIn(c, p, toks, i, b)
  }

  /** Cached in a block that is in use already. */
  ghost predicate Shared(c: Config, p: Pool, toks: seq<Token>, i: nat)
    requires c.Valid()
  {
    exists b :: CachedIn(c, p, toks, i, b) && b in p.used
  }

  /** The first m blocks are cached, and the next is not or is the last of the list,
      which is always computed. */
  ghost predicate LongestPrefix(c: Config, p: Pool, toks: seq<Token>, m: nat)
    requires c.Valid()
  {
    var n := CeilDiv(|toks|, c.blockSize);
    && (forall i: nat :: i < m ==> Cached(c, p, toks, i))
    && (if n == 0 then m == 0 else m <= n - 1 && (m == n - 1 || !Cached(c, p, toks, m)))
  }

  ghost function SharedBelow(c: Config, p: Pool, toks: seq<Token>, m: nat): set<nat>
    requires c.Valid()
  {
    set i: nat | i < m && Shared(c, p, toks, i)
  }

  lemma CachedOnce(c: Config, p: Pool, toks: seq<Token>, i: nat, b: nat)
    requires c.Valid() && CachedIn(c, p, toks, i, b)
    ensures Cached(c, p, toks, i)
    ensures Shared(c, p, toks, i) <==> b in p.used
  {
  }

  /** One step of the lookup. */
  lemma HitsNext(c: Config, p: Pool, toks: seq<Token>, i: nat, limit: nat)
    requires c.Valid() && i < limit
    ensures var hits := Hits(c, p, toks, i, limit, Chain(c, toks, i));
      if Cached(c, p, toks, i) then
        hits != [] && CachedIn(c, p, toks, i, hits[0]) && hits[1..] == Hits(c, p, toks, i + 1, limit, Chain(c, toks, i + 1))
      else hits == []
  {
    hide BlockTokens, Chain;
    ChainNext(c, toks, i);
    var d := Chain(c, toks, i + 1);
    if d in p.index { assert Names(p, d, p.index[d]); }
    if Hits(c, p, toks, i, limit, Chain(c, toks, i)) != [] { assert CachedIn(c, p, toks, i, p.index[d]); }
  }

  lemma {:induction false} HitsFrom(c: Config, p: Pool, toks: seq<Token>, i: nat, limit: nat)
    requires c.Valid() && i <= limit
    ensures var hits := Hits(c, p, toks, i, limit, Chain(c, toks, i));
      && i + |hits| <= limit
      && (forall k: nat :: k < |hits| ==> CachedIn(c, p, toks, i + k, hits[k]))
      && (i + |hits| < limit ==> !Cached(c, p, toks, i + |hits|))
    decreases limit - i
  {
    hide BlockTokens, Chain, Cached, CachedIn;
    if i < limit {
      HitsNext(c, p, toks, i, limit);
      if Cached(c, p, toks, i) {
        HitsFrom(c, p, toks, i + 1, limit);
        var hits := Hits(c, p, toks, i, limit, Chain(c, toks, i));
        forall k: nat | k < |hits| ensures CachedIn(c, p, toks, i + k, hits[k]) {
          if k > 0 { assert hits[1..][k - 1] == hits[k] && CachedIn(c, p, toks, i + 1 + (k - 1), hits[1..][k - 1]); }
        }
      }
    }
  }

  /** Counting the blocks in use one by one is counting their positions. */
  lemma {:induction false} SharedCount(c: Config, p: Pool, toks: seq<Token>, hits: seq<nat>, n: nat)
    requires c.Valid() && n <= |hits| && forall k: nat :: k < |hits| ==> CachedIn(c, p, toks, k, hits[k])
    ensures |SharedBelow(c, p, toks, n)| == n - CountOut(hits[..n], p.used)
  {
    hide CachedIn, Shared, CountOut;
    if n == 0 {
      CountOutNone(p.used);
      assert hits[..0] == [];
      assert SharedBelow(c, p, toks, 0) == {};
    } else {
      SharedCount(c, p, toks, hits, n - 1);
      CachedOnce(c, p, toks, n - 1, hits[n - 1]);
      assert hits[..n] == hits[..n - 1] + [hits[n - 1]];
      CountOutAppend(hits[..n - 1], hits[n - 1], p.used);
      var before := SharedBelow(c, p, toks, n - 1);
      assert SharedBelow(c, p, toks, n) == if Shared(c, p, toks, n - 1) then before + {n - 1} else before;
    }
  }

  /** Admission in both directions. It finds the longest cached prefix short of the last
      block, and refuses exactly when the free list is shorter than the blocks of the
      request that are not already in use. */
  lemma AdmissionExact(c: Config, p: Pool, s: Row) returns (m: nat)
    requires c.Valid()
    ensures LongestPrefix(c, p, s.toks, m)
    ensures CanAllocate(c, p, s) ==
      if |p.free| < CeilDiv(|s.toks|, c.blockSize) - |SharedBelow(c, p, s.toks, m)| then None else Some(m)
  {
    hide Hits, Cached, CachedIn, CountOut, BlockTokens, CeilDiv, SharedBelow;
    var n := CeilDiv(|s.toks|, c.blockSize);
    var limit := if n == 0 then 0 else n - 1;
    HitsFrom(c, p, s.toks, 0, limit);
    var hits := Hits(c, p, s.toks, 0, limit, NO_HASH);
    assert Chain(c, s.toks, 0) == NO_HASH;
    m := |hits|;
    forall k: nat | k < m ensures CachedIn(c, p, s.toks, k, hits[k]) && Cached(c, p, s.toks, k) {
      assert CachedIn(c, p, s.toks, 0 + k, hits[k]);
      CachedOnce(c, p, s.toks, k, hits[k]);
    }
    SharedCount(c, p, s.toks, hits, m);
    assert hits[..m] == hits;
  }

  /** There is only one longest prefix, so the lookup's answer is determined. */
  lemma OneLongest(c: Config, p: Pool, toks: seq<Token>, m: nat, m': nat)
    requires c.Valid() && LongestPrefix(c, p, toks, m) && LongestPrefix(c, p, toks, m')
    ensures m == m'
  {
    hide Cached;
  }

  // ----- which blocks a request gets -----

  lemma {:induction false} MinusTwice(q: seq<nat>, a: set<nat>, b: set<nat>)
    ensures Minus(Minus(q, a), b) == Minus(q, a + b)
  {
    if q != [] { MinusTwice(q[1..], a, b); }
  }

  lemma {:induction false} MinusOne(q: seq<nat>, b: nat)
    requires NoDup(q)
    ensures Minus(q, {b}) == if b in q then RemoveFirst(q, b) else q
  {
    if q != [] {
      NoDupCons(q);
      MinusOne(q[1..], b);
      assert q == [q[0]] + q[1..];
    }
  }

  lemma AttachOne(p: Pool, b: nat)
    requires FreeList(p) && b < |p.blocks|
    ensures var q := Attach(p, b);
      && q.free == Minus(p.free, {b}) && q.used == p.used + {b} && q.index == p.index
  {
    MinusOne(p.free, b);
  }

  /** Attaching hits takes exactly them off the free list and keeps the order of the rest. */
  lemma {:induction false} AttachOrder(p: Pool, ids: seq<nat>, m: multiset<nat>)
    requires Wf(p) && Owned(p, m) && forall b :: b in ids ==> b < |p.blocks| && p.blocks[b].hash != NO_HASH
    ensures var q := AttachAll(p, ids);
      && q.free == Minus(p.free, ToSet(ids)) && q.used == p.used + ToSet(ids) && q.index == p.index
    decreases |ids|
  {
    hide Attach, FreeList, IndexAgrees, Owned, Keeps, Minus;
    if ids == [] {
      assert ToSet(ids) == {};
      MinusNone(p.free);
    } else {
      var b := ids[0];
      assert b in ids && forall x :: x in ids[1..] ==> x in ids;
      AttachKeeps(p, b, m);
      AttachOne(p, b);
      AttachOrder(Attach(p, b), ids[1..], m + multiset{b});
      MinusTwice(p.free, {b}, ToSet(ids[1..]));
      assert ToSet(ids) == {b} + ToSet(ids[1..]);
    }
  }

  /** What an admitted request gets, exactly: the blocks of its longest cached prefix, then
      the head of what is left of the free list, as many as the scheduled tokens need. */
  lemma AdmissionAttaches(c: Config, p: Pool, s: Row, through: nat, rest: multiset<nat>) returns (hits: seq<nat>)
    requires c.Valid() && Wf(p) && Owned(p, rest) && s.table == [] && CanAllocate(c, p, s).Some?
    requires CanAllocate(c, p, s).value * c.blockSize < through <= |s.toks|
    ensures LongestPrefix(c, p, s.toks, |hits|) && forall i: nat :: i < |hits| ==> CachedIn(c, p, s.toks, i, hits[i])
    ensures var r := AllocateIncremental(c, p, s, |hits|, through);
      var free := Minus(p.free, ToSet(hits));
      var k := CeilDiv(through, c.blockSize) - |hits|;
      && CanAllocate(c, p, s) == Some(|hits|) && 0 <= k <= |free|
      && r.Done? && r.row == s.(table := hits + free[..k], cached := |hits| * c.blockSize, draft := 0)
      && r.pool.free == free[k..]
  {
    hide Owned, Keeps, Contents, Hits, CanAllocate, FreeList, IndexAgrees, CachedIn, CountOut, LongestPrefix, CeilDiv, Row.NumBlocks,
         Minus, AttachAll, Grow, IsHit;
    var m := AdmissionExact(c, p, s);
    AdmissionBounds(c, p, s, through);
    hits := Hits(c, p, s.toks, 0, m, NO_HASH);
    HitsFrom(c, p, s.toks, 0, m);
    assert Chain(c, s.toks, 0) == NO_HASH;
    forall i: nat | i < |hits| ensures CachedIn(c, p, s.toks, i, hits[i]) { assert CachedIn(c, p, s.toks, 0 + i, hits[i]); }
    HitsHashed(c, p, s.toks, hits);
    AttachOrder(p, hits, rest);
    AttachAllKeeps(p, hits, rest);
    var p1 := AttachAll(p, hits);
    FreeInRange(p1);
    GrowShape(p1, hits, CeilDiv(through, c.blockSize) - m);
  }

  lemma HitsHashed(c: Config, p: Pool, toks: seq<Token>, hits: seq<nat>)
    requires c.Valid() && IndexAgrees(p) && forall i: nat :: i < |hits| ==> CachedIn(c, p, toks, i, hits[i])
    ensures forall b :: b in hits ==> b < |p.blocks| && p.blocks[b].hash != NO_HASH
  {
    hide Chain, BlockTokens;
    forall b | b in hits ensures b < |p.blocks| && p.blocks[b].hash != NO_HASH {
      var i :| 0 <= i < |hits| && hits[i] == b;
      assert CachedIn(c, p, toks, i, hits[i]);
    }
  }

  /** A growing table takes the head of the free list, for a chunk or for one position. */
  lemma GrowthTakes(c: Config, p: Pool, s: Row, through: nat)
    requires c.Valid() && FreeList(p)
    ensures Extend(c, p, s, through).Done? ==>
      var n := Max(CeilDiv(through, c.blockSize) - |s.table|, 0);
      var r := Extend(c, p, s, through);
      && n <= |p.free| && r.row == s.(table := s.table + p.free[..n]) && r.pool.free == p.free[n..]
    ensures CanAppend(c, p, s) ==>
      var n := if |s.toks| % c.blockSize == 1 then 1 else 0;
      n <= |p.free| && MayAppend(c, p, s).1 == s.(table := s.table + p.free[..n]) && MayAppend(c, p, s).0.free == p.free[n..]
  {
    hide Grow, CeilDiv;
    FreeInRange(p);
    var n := CeilDiv(through, c.blockSize) - |s.table|;
    if 0 < n <= |p.free| { GrowShape(p, s.table, n); }
    if 1 <= |p.free| { GrowShape(p, s.table, 1); }
    assert s.table + p.free[..0] == s.table && p.free[0..] == p.free;
  }

  // ----- publication -----

  /** A digest of one of the blocks i..end of the list. */
  ghost predicate Digest(c: Config, toks: seq<Token>, i: nat, end: nat, h: int)
    requires c.Valid()
  {
    exists k: nat :: i < k <= end && h == Chain(c, toks, k)
  }

  /** The index afterwards: for each new digest the last block that carries it, for every
      other digest what it was. */
  ghost predicate Indexed(c: Config, p: Pool, q: Pool, s: Row, i: nat, end: nat)
    requires c.Valid() && end <= |s.table|
  {
    && (forall h :: h in q.index <==> h in p.index || Digest(c, s.toks, i, end, h))
    && (forall h :: h in p.index && !Digest(c, s.toks, i, end, h) ==> Names(q, h, p.index[h]))
    && (forall k: nat :: i < k <= end && !Digest(c, s.toks, k, end, Chain(c, s.toks, k))
          ==> Names(q, Chain(c, s.toks, k), s.table[k - 1]))
  }

  lemma DigestFirst(c: Config, toks: seq<Token>, i: nat, end: nat, h: int)
    requires c.Valid() && i < end
    ensures Digest(c, toks, i, end, h) <==> h == Chain(c, toks, i + 1) || Digest(c, toks, i + 1, end, h)
  {
    hide Chain;
  }

  lemma {:induction false} HashFromIndexes(c: Config, p: Pool, s: Row, i: nat, end: nat)
    requires c.Valid() && i <= end <= |s.table| && forall k :: 0 <= k < |s.table| ==> s.table[k] < |p.blocks|
    ensures Indexed(c, p, HashFrom(c, p, s, i, end, Chain(c, s.toks, i)), s, i, end)
    decreases end - i
  {
    hide BlockTokens, Chain, Digest;
    if i < end {
      var d := Chain(c, s.toks, i + 1);
      ChainNext(c, s.toks, i);
      var p1 := Publish(p, s.table[i], d, BlockTokens(s.toks, i, c.blockSize));
      HashFromIndexes(c, p1, s, i + 1, end);
      forall h ensures Digest(c, s.toks, i, end, h) <==> h == d || Digest(c, s.toks, i + 1, end, h) {
        DigestFirst(c, s.toks, i, end, h);
      }
    } else {
      HashFromNone(c, p, s, i, Chain(c, s.toks, i));
      NoDigest(c, s.toks, i);
    }
  }

  lemma NoDigest(c: Config, toks: seq<Token>, i: nat)
    requires c.Valid()
    ensures forall h :: !Digest(c, toks, i, i, h)
  {
  }

  /** Publication puts every newly full block under its digest, so that a later request
      with the same prefix finds it, and touches no other entry. */
  lemma PublishedFound(c: Config, p: Pool, s: Row)
    requires c.Valid() && Contents(c, p, s) && CeilDiv(s.cached + s.sched, c.blockSize) <= |s.table|
    ensures Full(c, s.cached + s.sched) <= |s.table|
    ensures Indexed(c, p, HashBlocks(c, p, s), s, Full(c, s.cached), Full(c, s.cached + s.sched))
  {
    hide Indexed, HashFrom, HashBlocks, Chain, SeedHash, BlockTokens, CeilDiv;
    CoveredBlocks(s.cached, s.sched, |s.table|, c.blockSize);
    SeedIsChain(c, p, s);
    HashBlocksUnfolds(c, p, s);
    HashFromIndexes(c, p, s, Full(c, s.cached), Full(c, s.cached + s.sched));
  }

  // ----- release -----

  function Backwards(q: seq<nat>): (r: seq<nat>)
    ensures |r| == |q|
  {
    seq(|q|, i requires 0 <= i < |q| => q[|q| - 1 - i])
  }

  /** q is p with the blocks of the table given back, last block first. */
  ghost predicate GivenBack(p: Pool, q: Pool, t: seq<nat>) {
    && q.free == p.free + Backwards(t) && q.used == p.used - ToSet(t) && q.index == p.index
    && |q.blocks| == |p.blocks|
    && forall b: nat :: b < |p.blocks| ==> q.blocks[b] == if b in t then p.blocks[b].(refs := 0) else p.blocks[b]
  }

  /** A table of blocks nobody else references goes to the back of the free list last
      block first, so the start of a prefix is reused last. Contents and index stay. */
  lemma {:induction false} ReleaseOrder(p: Pool, t: seq<nat>)
    requires NoDup(t) && forall i :: 0 <= i < |t| ==> t[i] < |p.blocks| && p.blocks[t[i]].refs == 1
    ensures GivenBack(p, Release(p, t), t)
    decreases |t|
  {
    hide GivenBack, Unref;
    if t == [] {
      NoneGivenBack(p);
    } else {
      var n := |t| - 1;
      var front, b := t[..n], t[n];
      UnrefLast(p, b);
      assert forall i :: 0 <= i < n ==> front[i] == t[i] && t[i] != b;
      ReleaseOrder(Unref(p, b), front);
      assert t == front + [b];
      LastGivenBack(p, Release(p, t), front, b);
    }
  }

  lemma UnrefLast(p: Pool, b: nat)
    requires b < |p.blocks| && p.blocks[b].refs == 1
    ensures Unref(p, b) == Pool(p.blocks[b := p.blocks[b].(refs := 0)], p.free + [b], p.used - {b}, p.index)
  {
  }

  lemma NoneGivenBack(p: Pool)
    ensures GivenBack(p, p, [])
  {
    assert p.used - ToSet([]) == p.used;
  }

  lemma LastGivenBack(p: Pool, q: Pool, front: seq<nat>, b: nat)
    requires b < |p.blocks| && p.blocks[b].refs == 1 && b !in front
    requires GivenBack(Unref(p, b), q, front)
    ensures GivenBack(p, q, front + [b])
  {
    assert Backwards(front + [b]) == [b] + Backwards(front);
    assert p.free + [b] + Backwards(front) == p.free + ([b] + Backwards(front));
    assert forall x :: x in front + [b] <==> x in front || x == b;
    assert p.used - {b} - ToSet(front) == p.used - ToSet(front + [b]);
  }
}
