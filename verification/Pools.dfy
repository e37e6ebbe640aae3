/** The block pool: free list, used set, reference counts and prefix index.
    Each function is one mutation of the allocator; the lemmas give its closed
    form and show what it keeps. Functions are total: outside the states in which
    the allocator calls them they return the pool unchanged. */
module Pools {
  import opened Types

  /** Take the head of the free list and forget what it cached. */
  function Take(p: Pool): Pool {
    if p.free == [] || p.free[0] >= |p.blocks| then p
    else
      var b := p.free[0];
      var h := p.blocks[b].hash;
      Pool(
        p.blocks[b := FRESH],
        p.free[1..],
        p.used + {b},
        if h != NO_HASH && h in p.index && p.index[h] == b then p.index - {h} else p.index)
  }

  /** Take n blocks, appending each to a block table. */
  function Grow(p: Pool, table: seq<nat>, n: nat): (Pool, seq<nat>)
    decreases n
  {
    if n == 0 || p.free == [] then (p, table)
    else Grow(Take(p), table + [p.free[0]], n - 1)
  }

  /** The element list without the first occurrence of b. */
  function RemoveFirst(q: seq<nat>, b: nat): seq<nat> {
    if q == [] then []
    else if q[0] == b then q[1..]
    else [q[0]] + RemoveFirst(q[1..], b)
  }

  /** Pin a cached block: share it when it is in use, revive it when it is free. */
  function Attach(p: Pool, b: nat): Pool {
    if b >= |p.blocks| then p
    else if b in p.used then
      p.(blocks := p.blocks[b := p.blocks[b].(refs := p.blocks[b].refs + 1)])
    else
      Pool(p.blocks[b := p.blocks[b].(refs := 1)], RemoveFirst(p.free, b), p.used + {b}, p.index)
  }

  function AttachAll(p: Pool, ids: seq<nat>): Pool
    decreases |ids|
  {
    if ids == [] then p else AttachAll(Attach(p, ids[0]), ids[1..])
  }

  /** Drop one reference; a block nobody references goes to the back of the free
      list with its cached contents intact. */
  function Unref(p: Pool, b: nat): Pool {
    if b >= |p.blocks| then p
    else
      var r := p.blocks[b].refs - 1;
      var blocks' := p.blocks[b := p.blocks[b].(refs := r)];
      if r == 0 then Pool(blocks', p.free + [b], p.used - {b}, p.index)
      else p.(blocks := blocks')
  }

  /** Drop a whole table, last block first. */
  function Release(p: Pool, table: seq<nat>): Pool
    decreases |table|
  {
    if table == [] then p
    else Release(Unref(p, table[|table| - 1]), table[..|table| - 1])
  }

  /** Record that block b now holds the block with chain digest h. */
  function Publish(p: Pool, b: nat, h: int, toks: seq<Token>): Pool {
    if b >= |p.blocks| then p
    else p.(blocks := p.blocks[b := p.blocks[b].(hash := h, toks := toks)], index := p.index[h := b])
  }

  // ----- invariants -----

  ghost predicate FreeList(p: Pool) {
    && NoDup(p.free)
    && (forall b :: b in p.free ==> b < |p.blocks| && b !in p.used)
    && (forall b :: b in p.used ==> b < |p.blocks| && b !in p.free)
    && (forall b: nat :: b < |p.blocks| ==> b in p.free || b in p.used)
  }

  /** Every index entry names a block that carries that digest. */
  ghost predicate IndexAgrees(p: Pool) {
    forall h :: h in p.index ==> h != NO_HASH && p.index[h] < |p.blocks| && p.blocks[p.index[h]].hash == h
  }

  ghost predicate Wf(p: Pool) {
    FreeList(p) && IndexAgrees(p)
  }

  /** Reference counts are the occurrences in the owners' tables, and a block is
      in use exactly when it occurs. */
  ghost predicate Owned(p: Pool, m: multiset<nat>) {
    && (forall b :: b in m ==> b < |p.blocks|)
    && (forall b: nat :: b < |p.blocks| ==> p.blocks[b].refs == m[b] && (b in p.used <==> b in m))
  }

  /** What an operation on one table leaves alone in the blocks of all others:
      contents always, and a fresh exclusive block entirely. */
  ghost predicate Keeps(p: Pool, p': Pool, m: multiset<nat>) {
    && |p'.blocks| == |p.blocks|
    && forall b: nat :: b in m && b < |p.blocks| ==>
        && p'.blocks[b].hash == p.blocks[b].hash
        && p'.blocks[b].toks == p.blocks[b].toks
        && (p.blocks[b] == FRESH ==> p'.blocks[b] == FRESH)
  }

  lemma KeepsSelf(p: Pool, m: multiset<nat>)
    ensures Keeps(p, p, m)
  {
  }

  /** No index entry appears or changes; some may be gone. */
  ghost predicate Shrinks(p: Pool, p': Pool) {
    forall h :: h in p'.index ==> h in p.index && p.index[h] == p'.index[h]
  }

  lemma KeepsSize(p: Pool, p': Pool, m: multiset<nat>)
    requires Keeps(p, p', m)
    ensures |p'.blocks| == |p.blocks|
  {
  }

  lemma KeepsTrans(p: Pool, p': Pool, p'': Pool, m: multiset<nat>)
    requires Keeps(p, p', m) && Keeps(p', p'', m)
    ensures Keeps(p, p'', m)
  {
  }

  lemma KeepsLess(p: Pool, p': Pool, m: multiset<nat>, less: multiset<nat>)
    requires Keeps(p, p', m) && less <= m
    ensures Keeps(p, p', less)
  {
  }

  lemma TakeKeeps(p: Pool, m: multiset<nat>)
    requires Wf(p) && Owned(p, m) && p.free != []
    ensures Wf(Take(p)) && Owned(Take(p), m + multiset{p.free[0]})
    ensures Keeps(p, Take(p), m) && m[p.free[0]] == 0
    ensures Take(p).free == p.free[1..] && Take(p).used == p.used + {p.free[0]}
    ensures Take(p).blocks == p.blocks[p.free[0] := FRESH]
    ensures Take(p).index == Without(p.index, {p.free[0]})
  {
    var b := p.free[0];
    var q := Take(p);
    assert b in p.free;
    var h := p.blocks[b].hash;
    forall k | k in p.index ensures k in q.index <==> p.index[k] != b {
      assert p.index[k] == b ==> k == h;
    }
    assert q.index.Keys == Without(p.index, {b}).Keys;
    assert q.index == Without(p.index, {b});
    assert p.free == [b] + p.free[1..];
    forall x: nat | x < |q.blocks| ensures x in q.free || x in q.used {
      assert x in p.free || x in p.used;
    }
    assert forall i :: 0 <= i < |q.free| ==> q.free[i] == p.free[i + 1];
    forall x | x in q.free ensures x != b && x in p.free {
      var i :| 0 <= i < |q.free| && q.free[i] == x;
      assert p.free[0] != p.free[i + 1];
    }
  }

  lemma HeadInRange(p: Pool)
    requires Wf(p) && p.free != []
    ensures p.free[0] < |p.blocks|
  {
    assert p.free[0] in p.free;
  }

  lemma {:induction false} GrowShape(p: Pool, table: seq<nat>, n: nat)
    requires n <= |p.free| && forall i :: 0 <= i < n ==> p.free[i] < |p.blocks|
    ensures Grow(p, table, n).1 == table + p.free[..n]
    ensures Grow(p, table, n).0.free == p.free[n..]
    decreases n
  {
    if n == 0 {
      assert p.free[..0] == [];
      assert p.free[0..] == p.free;
      assert table + [] == table;
    } else {
      var p1 := Take(p);
      assert p1.free == p.free[1..];
      GrowShape(p1, table + [p.free[0]], n - 1);
      assert table + [p.free[0]] + p1.free[..n - 1] == table + p.free[..n];
      assert p1.free[n - 1..] == p.free[n..];
    }
  }

  lemma {:induction false} GrowKeeps(p: Pool, table: seq<nat>, n: nat, m: multiset<nat>)
    requires Wf(p) && Owned(p, m) && n <= |p.free|
    ensures var q := Grow(p, table, n).0;
      Wf(q) && Owned(q, m + multiset(p.free[..n])) && Keeps(p, q, m)
    decreases n
  {
    hide Take, FreeList, IndexAgrees, Owned, Keeps;
    if n == 0 {
      assert m + multiset(p.free[..0]) == m;
      KeepsSelf(p, m);
    } else {
      var b := p.free[0];
      var p1 := Take(p);
      assert b < |p.blocks| by { HeadInRange(p); }
      TakeKeeps(p, m);
      GrowKeeps(p1, table + [b], n - 1, m + multiset{b});
      var q := Grow(p, table, n).0;
      assert m + multiset{b} + multiset(p1.free[..n - 1]) == m + multiset(p.free[..n]) by {
        assert p.free[..n] == [b] + p1.free[..n - 1];
      }
      KeepsLess(p1, q, m + multiset{b}, m);
      KeepsTrans(p, p1, q, m);
    }
  }

  lemma WithoutTwice(index: map<int, nat>, a: set<nat>, b: set<nat>)
    ensures Without(Without(index, a), b) == Without(index, a + b)
  {
  }

  lemma WithoutNone(index: map<int, nat>)
    ensures Without(index, {}) == index
  {
  }

  lemma {:induction false} GrowMeta(p: Pool, table: seq<nat>, n: nat, m: multiset<nat>)
    requires Wf(p) && Owned(p, m) && n <= |p.free|
    ensures var q := Grow(p, table, n).0;
      && |q.blocks| == |p.blocks|
      && q.used == p.used + ToSet(p.free[..n])
      && q.index == Without(p.index, ToSet(p.free[..n]))
      && (forall b: nat :: b < |p.blocks| ==>
            q.blocks[b] == if b in ToSet(p.free[..n]) then FRESH else p.blocks[b])
    decreases n
  {
    hide Take, FreeList, IndexAgrees, Owned, Keeps, Without;
    if n == 0 {
      assert ToSet(p.free[..0]) == {};
      WithoutNone(p.index);
    } else {
      var b := p.free[0];
      var p1 := Take(p);
      HeadInRange(p);
      TakeKeeps(p, m);
      GrowMeta(p1, table + [b], n - 1, m + multiset{b});
      assert p.free[..n] == [b] + p1.free[..n - 1];
      assert ToSet(p.free[..n]) == {b} + ToSet(p1.free[..n - 1]);
      WithoutTwice(p.index, {b}, ToSet(p1.free[..n - 1]));
    }
  }

  lemma NoDupCons(q: seq<nat>)
    requires q != []
    ensures NoDup(q) <==> q[0] !in q[1..] && NoDup(q[1..])
  {
    var a := q[1..];
    if q[0] !in a && NoDup(a) {
      forall i, j | 0 <= i < j < |q| ensures q[i] != q[j] {
        assert q[j] == a[j - 1];
        if i > 0 { assert q[i] == a[i - 1]; }
      }
    }
    if NoDup(q) {
      forall i, j | 0 <= i < j < |a| ensures a[i] != a[j] { assert q[i + 1] != q[j + 1]; }
      forall i | 0 <= i < |a| ensures a[i] != q[0] { assert q[0] != q[i + 1]; }
    }
  }

  lemma TailOf(q: seq<nat>)
    requires NoDup(q) && q != []
    ensures NoDup(q[1..]) && q[0] !in q[1..] && forall x :: x in q <==> x == q[0] || x in q[1..]
  {
    NoDupCons(q);
    assert q == [q[0]] + q[1..];
  }

  lemma {:induction false} RemoveFirstIs(q: seq<nat>, b: nat)
    requires NoDup(q) && b in q
    ensures NoDup(RemoveFirst(q, b)) && |RemoveFirst(q, b)| == |q| - 1
    ensures forall x :: x in RemoveFirst(q, b) <==> x in q && x != b
  {
    if q[0] == b {
      TailOf(q);
    } else {
      TailOf(q);
      RemoveFirstIs(q[1..], b);
      var r := RemoveFirst(q[1..], b);
      hide RemoveFirst;
      assert q[0] !in r && ([q[0]] + r)[1..] == r;
      NoDupCons([q[0]] + r);
      assert forall x :: x in [q[0]] + r <==> x == q[0] || x in r;
    }
  }

  lemma AttachKeeps(p: Pool, b: nat, m: multiset<nat>)
    requires Wf(p) && Owned(p, m) && b < |p.blocks| && p.blocks[b].hash != NO_HASH
    ensures Wf(Attach(p, b)) && Owned(Attach(p, b), m + multiset{b})
    ensures Keeps(p, Attach(p, b), m)
    ensures Attach(p, b).index == p.index && Attach(p, b).used == p.used + {b}
    ensures |Attach(p, b).free| == |p.free| - (if b in p.used then 0 else 1)
    ensures forall x: nat :: x < |p.blocks| ==>
        && Attach(p, b).blocks[x].hash == p.blocks[x].hash
        && Attach(p, b).blocks[x].toks == p.blocks[x].toks
  {
    if b !in p.used {
      assert b in p.free;
      RemoveFirstIs(p.free, b);
    } else {
      assert p.used + {b} == p.used;
    }
  }

  /** Blocks of the list that are not in the set, counted with repetition. */
  function CountOut(ids: seq<nat>, used: set<nat>): nat {
    if ids == [] then 0 else (if ids[0] in used then 0 else 1) + CountOut(ids[1..], used)
  }

  lemma {:induction false} CountOutMono(ids: seq<nat>, used: set<nat>, used': set<nat>)
    requires used <= used'
    ensures CountOut(ids, used') <= CountOut(ids, used) <= |ids|
  {
    if ids != [] { CountOutMono(ids[1..], used, used'); }
  }

  lemma CountOutNone(used: set<nat>)
    ensures CountOut([], used) == 0
  {
  }

  lemma CountOutAppend(ids: seq<nat>, b: nat, used: set<nat>)
    ensures CountOut(ids + [b], used) == CountOut(ids, used) + (if b in used then 0 else 1)
  {
    if ids == [] {
      assert [] + [b] == [b];
      assert [b][1..] == [];
    } else {
      assert (ids + [b])[1..] == ids[1..] + [b];
      CountOutAppend(ids[1..], b, used);
    }
  }

  lemma {:induction false} AttachAllKeeps(p: Pool, ids: seq<nat>, m: multiset<nat>)
    requires Wf(p) && Owned(p, m)
    requires forall b :: b in ids ==> b < |p.blocks| && p.blocks[b].hash != NO_HASH
    ensures var q := AttachAll(p, ids);
      && Wf(q) && Owned(q, m + multiset(ids)) && Keeps(p, q, m)
      && q.index == p.index
      && |q.free| >= |p.free| - CountOut(ids, p.used)
      && (forall x: nat :: x < |p.blocks| ==>
            q.blocks[x].hash == p.blocks[x].hash && q.blocks[x].toks == p.blocks[x].toks)
    decreases |ids|
  {
    if ids == [] {
      assert m + multiset(ids) == m;
    } else {
      var b := ids[0];
      assert ids == [b] + ids[1..];
      assert b in ids && forall x :: x in ids[1..] ==> x in ids;
      AttachKeeps(p, b, m);
      AttachAllKeeps(Attach(p, b), ids[1..], m + multiset{b});
      CountOutMono(ids[1..], p.used, p.used + {b});
      assert m + multiset{b} + multiset(ids[1..]) == m + multiset(ids);
    }
  }

  lemma OwnedMember(p: Pool, b: nat, m: multiset<nat>)
    requires Wf(p) && Owned(p, m) && b in m
    ensures b < |p.blocks| && b in p.used && b !in p.free && p.blocks[b].refs == m[b]
  {
  }

  lemma UnrefFree(p: Pool, b: nat, m: multiset<nat>)
    requires Wf(p) && b < |p.blocks| && b in p.used && b !in p.free
    ensures FreeList(Unref(p, b)) && p.free <= Unref(p, b).free
  {
    hide IndexAgrees;
    var q := Unref(p, b);
    if p.blocks[b].refs == 1 {
      assert q.free == p.free + [b];
      assert forall x :: x in q.free <==> x in p.free || x == b;
    }
  }

  lemma UnrefOwned(p: Pool, b: nat, m: multiset<nat>)
    requires Owned(p, m) && b in m && b < |p.blocks| && b in p.used
    ensures Owned(Unref(p, b), m - multiset{b}) && Keeps(p, Unref(p, b), m - multiset{b})
  {
  }

  lemma UnrefKeeps(p: Pool, b: nat, m: multiset<nat>)
    requires Wf(p) && Owned(p, m) && b in m
    ensures Wf(Unref(p, b)) && Owned(Unref(p, b), m - multiset{b})
    ensures Keeps(p, Unref(p, b), m - multiset{b})
    ensures Unref(p, b).index == p.index && p.free <= Unref(p, b).free
    ensures forall x: nat :: x < |p.blocks| ==>
        && Unref(p, b).blocks[x].hash == p.blocks[x].hash
        && Unref(p, b).blocks[x].toks == p.blocks[x].toks
  {
    hide FreeList, Owned, Keeps;
    OwnedMember(p, b, m);
    UnrefFree(p, b, m);
    UnrefOwned(p, b, m);
  }

  lemma OwnedIsUsed(p: Pool, m: multiset<nat>, b: nat)
    requires Wf(p) && Owned(p, m) && m[b] > 0
    ensures b < |p.blocks| && b in p.used && b !in p.free
  {
    hide IndexAgrees;
    assert b in m;
  }

  lemma {:induction false} ReleaseKeeps(p: Pool, table: seq<nat>, m: multiset<nat>)
    requires Wf(p) && Owned(p, m + multiset(table))
    ensures var q := Release(p, table);
      && Wf(q) && Owned(q, m) && Keeps(p, q, m)
      && q.index == p.index && p.free <= q.free
      && (forall x: nat :: x < |p.blocks| ==>
            q.blocks[x].hash == p.blocks[x].hash && q.blocks[x].toks == p.blocks[x].toks)
    decreases |table|
  {
    if table == [] {
      assert m + multiset(table) == m;
    } else {
      var b := table[|table| - 1];
      var rest := table[..|table| - 1];
      assert table == rest + [b];
      var m1 := m + multiset(rest);
      assert m + multiset(table) - multiset{b} == m1;
      UnrefKeeps(p, b, m + multiset(table));
      ReleaseKeeps(Unref(p, b), rest, m);
      assert forall x :: x in m ==> x in m1;
    }
  }

  lemma PublishKeeps(p: Pool, b: nat, h: int, toks: seq<Token>, m: multiset<nat>)
    requires Wf(p) && b < |p.blocks| && p.blocks[b].hash == NO_HASH && h != NO_HASH && m[b] == 0
    ensures Wf(Publish(p, b, h, toks)) && Keeps(p, Publish(p, b, h, toks), m)
    ensures forall k :: Owned(p, k) ==> Owned(Publish(p, b, h, toks), k)
  {
  }

  lemma PublishLists(p: Pool, b: nat, h: int, toks: seq<Token>)
    ensures Publish(p, b, h, toks).free == p.free && Publish(p, b, h, toks).used == p.used
  {
  }

  // ----- counting -----

  lemma {:induction false} NoDupCard(q: seq<nat>)
    requires NoDup(q)
    ensures |ToSet(q)| == |q|
  {
    if q == [] {
      assert ToSet(q) == {};
    } else {
      var r := q[..|q| - 1];
      var b := q[|q| - 1];
      assert q == r + [b];
      NoDupCard(r);
      assert b !in r;
      assert ToSet(q) == ToSet(r) + {b};
    }
  }

  function Range(n: nat): (r: set<nat>)
    ensures forall b: nat :: b in r <==> b < n
  {
    if n == 0 then {} else Range(n - 1) + {n - 1}
  }

  lemma {:induction false} RangeCard(n: nat)
    ensures |Range(n)| == n
  {
    if n > 0 { RangeCard(n - 1); }
  }

  /** Free and used blocks partition the pool. */
  lemma Conservation(p: Pool)
    requires FreeList(p)
    ensures |p.free| + |p.used| == |p.blocks|
  {
    NoDupCard(p.free);
    RangeCard(|p.blocks|);
    assert Range(|p.blocks|) == ToSet(p.free) + p.used;
    assert ToSet(p.free) !! p.used;
  }

  lemma {:induction false} SetOfSeqCard(q: seq<nat>)
    ensures |ToSet(q)| <= |q|
  {
    if q == [] {
      assert ToSet(q) == {};
    } else {
      SetOfSeqCard(q[1..]);
      assert q == [q[0]] + q[1..];
      assert ToSet(q) == {q[0]} + ToSet(q[1..]);
    }
  }

  /** When one table is the only owner, everything it does not name is free. */
  lemma FreeBesides(p: Pool, table: seq<nat>)
    requires Wf(p) && Owned(p, multiset(table))
    ensures |p.free| >= |p.blocks| - |table|
  {
    Conservation(p);
    assert p.used == ToSet(table);
    SetOfSeqCard(table);
  }
}
