/** A burst commit is an ordinary commit: appending all but the last token of the
    burst first, then committing the last one. From this follow the invariants of
    the speculative commit. */
module Burst {
  import opened Arith
  import opened Types
  import opened Pools
  import opened Allocator
  import opened Queues
  import opened States
  import opened Progress
  import opened Commit
  import opened Leases
  import opened Speculation

  // ----- the cut -----

  /** The committed part of a burst is a non-empty prefix that stops exactly where
      token-by-token decoding would. */
  ghost predicate CutIs(c: Config, s: Row, burst: seq<Token>, ts: seq<Token>) {
    && 1 <= |ts| <= |burst| && ts == burst[..|ts|]
    && (forall j :: 1 <= j < |ts| ==> !Stops(c, s.(toks := s.toks + ts[..j])))
    && (|ts| < |burst| ==> Stops(c, s.(toks := s.toks + ts)))
    && |s.toks| + |ts| - 1 < s.prompt + s.maxTokens
  }

  /** The first token already ends the burst. */
  lemma CutOne(c: Config, s: Row, burst: seq<Token>)
    requires burst != [] && s.Completions() < s.maxTokens
    requires (!s.ignoreEos && burst[0] == c.eos) || |burst| == 1 || s.Completions() + 1 >= s.maxTokens
    ensures CutIs(c, s, burst, Cut(c, s, burst)) && Cut(c, s, burst) == [burst[0]]
  {
    var s1 := s.(toks := s.toks + [burst[0]]);
    if s.ignoreEos || burst[0] != c.eos {
      assert |burst| == 1 ==> burst[1..] == [];
      assert Cut(c, s1, burst[1..]) == [];
    }
    assert burst[..1] == [burst[0]];
  }

  lemma GoesOn(c: Config, s: Row, t: Token)
    requires (s.ignoreEos || t != c.eos) && s.Completions() + 1 < s.maxTokens
    ensures !Stops(c, s.(toks := s.toks + [t]))
  {
  }

  lemma {:induction false} CutSpec(c: Config, s: Row, burst: seq<Token>)
    requires burst != [] && s.Completions() < s.maxTokens
    ensures CutIs(c, s, burst, Cut(c, s, burst))
    decreases |burst|
  {
    hide Stops;
    var t := burst[0];
    var s1 := s.(toks := s.toks + [t]);
    if (!s.ignoreEos && t == c.eos) || |burst| == 1 || s1.Completions() >= s1.maxTokens {
      CutOne(c, s, burst);
    } else {
      CutSpec(c, s1, burst[1..]);
      var ts, rest := Cut(c, s, burst), Cut(c, s1, burst[1..]);
      assert ts == [t] + rest;
      assert burst[..|ts|] == [t] + burst[1..][..|rest|];
      assert s1.toks + rest == s.toks + ts;
      GoesOn(c, s, t);
      forall j | 1 <= j < |ts| ensures !Stops(c, s.(toks := s.toks + ts[..j])) {
        if j == 1 {
          assert ts[..1] == [t];
        } else {
          assert s1.toks + rest[..j - 1] == s.toks + ts[..j];
        }
      }
    }
  }

  // ----- one row -----

  lemma {:induction false} HashFromMore(c: Config, p: Pool, s: Row, more: seq<Token>, i: nat, end: nat, h: int)
    requires c.Valid() && end * c.blockSize <= |s.toks|
    ensures HashFrom(c, p, s.(toks := s.toks + more), i, end, h) == HashFrom(c, p, s, i, end, h)
    decreases end - i
  {
    if i < end && i < |s.table| {
      BlockTokensMore(s.toks, more, i, end, c.blockSize);
      var blk := BlockTokens(s.toks, i, c.blockSize);
      hide BlockTokens, Publish;
      var d := c.hash(h, blk);
      HashFromMore(c, Publish(p, s.table[i], d, blk), s, more, i + 1, end, d);
    }
  }

  lemma BlockTokensMore(toks: seq<Token>, more: seq<Token>, i: nat, end: nat, bs: nat)
    requires i < end && end * bs <= |toks|
    ensures BlockTokens(toks + more, i, bs) == BlockTokens(toks, i, bs)
  {
    MulMono(i + 1, end, bs);
    MulMono(i, i + 1, bs);
  }

  /** Tokens past the coverage do not influence what is published. */
  lemma HashBlocksMore(c: Config, p: Pool, s: Row, more: seq<Token>)
    requires c.Valid() && s.cached + s.sched <= |s.toks|
    ensures HashBlocks(c, p, s.(toks := s.toks + more)) == HashBlocks(c, p, s)
  {
    var end := (s.cached + s.sched) / c.blockSize;
    DivBounds(s.cached + s.sched, c.blockSize);
    HashFromMore(c, p, s, more, s.cached / c.blockSize, end, SeedHash(p, s, s.cached / c.blockSize));
  }

  /** The row just before its last burst token is committed: earlier tokens are
      part of the sequence and their positions are scheduled. */
  function Bumped(s: Row, ts: seq<Token>): Row
    requires ts != []
  {
    s.(toks := s.toks + ts[..|ts| - 1], sched := |ts|)
  }

  function Last(ts: seq<Token>): Token
    requires ts != []
  {
    ts[|ts| - 1]
  }

  lemma BurstRowIsPost(c: Config, p: Pool, s: Row, ts: seq<Token>, k: nat)
    requires c.Valid() && ts != [] && s.cached + 1 == |s.toks| && s.status == Running
    ensures var r := PostRow(c, p, Bumped(s, ts), Last(ts));
      var finished := r.row.status == Finished;
      BurstRow(c, p, s, ts, k) ==
        Posted(r.pool,
               if finished then r.row else r.row.(draft := DraftAfter(s, ts, k)),
               BurstEvents(s.id, ts, finished))
  {
    var b := Bumped(s, ts);
    var grown := s.(toks := s.toks + ts, sched := |ts|);
    assert b.toks + [Last(ts)] == grown.toks;
    HashBlocksMore(c, p, b, [Last(ts)]);
    hide HashBlocks, Release, BurstEvents;
    assert grown == b.(toks := b.toks + [Last(ts)]);
  }

  // ----- the batch -----

  function BumpedRows(rows: seq<Row>, cuts: seq<seq<Token>>): (b: seq<Row>)
    requires |rows| == |cuts| && forall i :: 0 <= i < |cuts| ==> cuts[i] != []
    ensures |b| == |rows|
  {
    seq(|rows|, i requires 0 <= i < |rows| => Bumped(rows[i], cuts[i]))
  }

  function Lasts(cuts: seq<seq<Token>>): (ts: seq<Token>)
    requires forall i :: 0 <= i < |cuts| ==> cuts[i] != []
    ensures |ts| == |cuts|
  {
    seq(|cuts|, i requires 0 <= i < |cuts| => Last(cuts[i]))
  }

  /** The event stream of a burst batch: each row's tokens in order. */
  function BurstStream(rows: seq<Row>, cuts: seq<seq<Token>>, rows': seq<Row>): seq<Event>
    requires |rows| == |cuts| == |rows'|
  {
    if rows == [] then []
    else BurstEvents(rows[0].id, cuts[0], rows'[0].status == Finished) + BurstStream(rows[1..], cuts[1..], rows'[1..])
  }

  predicate AboutToCommit(s: Row) { s.cached + 1 == |s.toks| && s.status == Running }

  ghost predicate SameButDraft(s: Row, ts: seq<Token>, k: nat, post: Row, burst: Row)
    requires ts != []
  {
    burst == if post.status == Finished then post else post.(draft := DraftAfter(s, ts, k))
  }

  /** The first row of both commits, and what is left for the others. */
  lemma FirstBurst(c: Config, p: Pool, rows: seq<Row>, cuts: seq<seq<Token>>, k: nat)
    requires c.Valid() && |rows| == |cuts| && rows != [] && AboutToCommit(rows[0])
    requires forall i :: 0 <= i < |cuts| ==> cuts[i] != []
    ensures var r0 := PostRow(c, p, Bumped(rows[0], cuts[0]), Last(cuts[0]));
      var x, r := BurstRows(c, p, rows, cuts, k), PostRows(c, p, BumpedRows(rows, cuts), Lasts(cuts));
      var x1 := BurstRows(c, r0.pool, rows[1..], cuts[1..], k);
      var r1 := PostRows(c, r0.pool, BumpedRows(rows[1..], cuts[1..]), Lasts(cuts[1..]));
      && x.pool == x1.pool && r.pool == r1.pool
      && |x.rows| == |x1.rows| + 1 && x.rows[1..] == x1.rows && |r.rows| == |r1.rows| + 1 && r.rows[1..] == r1.rows
      && r.rows[0] == r0.row && SameButDraft(rows[0], cuts[0], k, r0.row, x.rows[0])
      && x.events == BurstEvents(rows[0].id, cuts[0], r0.row.status == Finished) + x1.events
  {
    hide PostRow, BurstRow, Bumped, BurstEvents, SameButDraft, Last;
    var b, lasts := BumpedRows(rows, cuts), Lasts(cuts);
    assert b[1..] == BumpedRows(rows[1..], cuts[1..]);
    assert lasts[1..] == Lasts(cuts[1..]);
    BurstRowIsPost(c, p, rows[0], cuts[0], k);
    SameRow(rows[0], cuts[0], k, PostRow(c, p, b[0], lasts[0]).row, BurstRow(c, p, rows[0], cuts[0], k).row);
  }

  lemma {:induction false} BurstRowsArePost(c: Config, p: Pool, rows: seq<Row>, cuts: seq<seq<Token>>, k: nat)
    requires c.Valid() && |rows| == |cuts|
    requires forall i :: 0 <= i < |cuts| ==> cuts[i] != []
    requires forall i :: 0 <= i < |rows| ==> AboutToCommit(rows[i])
    ensures var x := BurstRows(c, p, rows, cuts, k);
      var r := PostRows(c, p, BumpedRows(rows, cuts), Lasts(cuts));
      && x.pool == r.pool && |x.rows| == |r.rows| == |rows|
      && (forall i :: 0 <= i < |rows| ==> SameButDraft(rows[i], cuts[i], k, r.rows[i], x.rows[i]))
      && x.events == BurstStream(rows, cuts, r.rows)
    decreases |rows|
  {
    hide PostRow, BurstRow, Bumped, BurstEvents, SameButDraft, AboutToCommit, Last;
    if rows != [] {
      var rows1, cuts1 := rows[1..], cuts[1..];
      assert forall i :: 0 <= i < |rows| - 1 ==> rows1[i] == rows[i + 1] && cuts1[i] == cuts[i + 1];
      FirstBurst(c, p, rows, cuts, k);
      var r0 := PostRow(c, p, Bumped(rows[0], cuts[0]), Last(cuts[0]));
      BurstRowsArePost(c, r0.pool, rows1, cuts1, k);
      var x := BurstRows(c, p, rows, cuts, k);
      var r := PostRows(c, p, BumpedRows(rows, cuts), Lasts(cuts));
      forall i | 0 <= i < |rows| ensures SameButDraft(rows[i], cuts[i], k, r.rows[i], x.rows[i]) {
        if i > 0 { assert r.rows[i] == r.rows[1..][i - 1] && x.rows[i] == x.rows[1..][i - 1] && rows1[i - 1] == rows[i]; }
      }
    }
  }

  lemma SameRow(s: Row, ts: seq<Token>, k: nat, post: Row, burst: Row)
    requires ts != []
    requires burst == if post.status == Finished then post else post.(draft := DraftAfter(s, ts, k))
    ensures SameButDraft(s, ts, k, post, burst)
  {
  }

  // ----- the trimmed lease holds the bumped rows -----

  /** Free blocks that no longer cache anything disturb no owner. */
  lemma EvictedHeld(c: Config, p: Pool, order: seq<nat>, q: seq<Row>)
    requires c.Valid() && Held(c, p, q) && forall b :: b in order ==> b in p.free
    ensures Held(c, Evicted(p, order), q) && Shrinks(p, Evicted(p, order))
    ensures Evicted(p, order).free == p.free && Evicted(p, order).used == p.used
  {
    hide RowOk, Distinct;
    EvictedKeeps(p, order, Owners(q));
    hide Evicted, Wf, Owned, Keeps;
    AllOkStable(c, p, Evicted(p, order), q);
    KeepsSize(p, Evicted(p, order), Owners(q));
  }

  lemma EvictedKeeps(p: Pool, order: seq<nat>, m: multiset<nat>)
    requires Wf(p) && Owned(p, m) && forall b :: b in order ==> b in p.free
    ensures var e := Evicted(p, order);
      Wf(e) && Owned(e, m) && Keeps(p, e, m) && Shrinks(p, e)
  {
    var e := Evicted(p, order);
    forall h | h in e.index ensures e.blocks[e.index[h]].hash == h {
      assert e.index[h] !in order;
    }
    forall b | b in m ensures b !in order {}
  }

  /** What one row keeps of its leased suffix. */
  ghost predicate KeepsPrefix(c: Config, s: Row, ts: seq<Token>, appended: seq<nat>, n: int)
    requires c.Valid() && ts != []
  {
    && 0 <= n <= |appended|
    && |s.toks| + |ts| - 1 < s.prompt + s.maxTokens
    && CeilDiv(|s.toks| + |ts| - 1, c.blockSize) == |s.table| + n
  }

  lemma BumpedOk(c: Config, p: Pool, q: Pool, s: Row, ts: seq<Token>, more: seq<nat>, m: multiset<nat>)
    requires c.Valid() && RowOk(c, p, s) && Planned(s) && ts != [] && multiset(s.table) <= m && Keeps(p, q, m)
    requires KeepsPrefix(c, s, ts, more, |more|)
    requires forall b :: b in more ==> b < |q.blocks| && q.blocks[b] == FRESH
    ensures RowOk(c, q, Bumped(s.(table := s.table + more), ts))
    ensures Complete(Bumped(s.(table := s.table + more), ts))
  {
    hide Contents, Keeps;
    ContentsStable(c, p, q, s, m);
    ContentsGrown(c, q, s, more);
    var s1 := s.(table := s.table + more);
    ContentsAppend(c, q, s1, ts[..|ts| - 1]);
    ContentsSame(c, q, s1.(toks := s1.toks + ts[..|ts| - 1]), Bumped(s1, ts));
  }

  /** The kept rows: base tables extended by the kept prefixes. */
  function Trimmed(rows: seq<Row>, leased: seq<LeaseRow>, keep: seq<int>): (t: seq<Row>)
    requires |rows| == |leased| && KeepFits(leased, keep)
    ensures |t| == |rows|
  {
    seq(|rows|, i requires 0 <= i < |rows| => rows[i].(table := rows[i].table + leased[i].appended[..keep[i]]))
  }

  /** Trimming changes only tables. */
  lemma TrimmedRows(rows: seq<Row>, leased: seq<LeaseRow>, keep: seq<int>)
    requires |rows| == |leased| && KeepFits(leased, keep)
    ensures var t := Trimmed(rows, leased, keep);
      forall i :: 0 <= i < |rows| ==> t[i] == rows[i].(table := t[i].table)
  {
    hide KeepFits;
  }

  lemma KeepFitsTail(leased: seq<LeaseRow>, keep: seq<int>)
    requires leased != [] && KeepFits(leased, keep)
    ensures KeepFits(leased[1..], keep[1..])
  {
    assert forall i :: 0 <= i < |keep| - 1 ==> keep[1..][i] == keep[i + 1] && leased[1..][i] == leased[i + 1];
  }

  lemma {:induction false} TrimmedOwners(rows: seq<Row>, leased: seq<LeaseRow>, keep: seq<int>, cuts: seq<seq<Token>>)
    requires |rows| == |leased| == |cuts| && KeepFits(leased, keep) && forall i :: 0 <= i < |cuts| ==> cuts[i] != []
    ensures Owners(BumpedRows(Trimmed(rows, leased, keep), cuts)) == Owners(rows) + multiset(Kept(leased, keep))
  {
    var b := BumpedRows(Trimmed(rows, leased, keep), cuts);
    if rows != [] {
      KeepFitsTail(leased, keep);
      assert Trimmed(rows, leased, keep)[1..] == Trimmed(rows[1..], leased[1..], keep[1..]);
      assert b[1..] == BumpedRows(Trimmed(rows[1..], leased[1..], keep[1..]), cuts[1..]);
      TrimmedOwners(rows[1..], leased[1..], keep[1..], cuts[1..]);
      assert b[0].table == rows[0].table + leased[0].appended[..keep[0]];
      assert multiset(b[0].table) == multiset(rows[0].table) + multiset(leased[0].appended[..keep[0]]);
    }
  }

  lemma {:induction false} KeptNoDup(leased: seq<LeaseRow>, keep: seq<int>)
    requires KeepFits(leased, keep) && NoDup(Flatten(leased))
    ensures NoDup(Kept(leased, keep))
  {
    if leased != [] {
      KeepFitsTail(leased, keep);
      var a, r := leased[0].appended, Flatten(leased[1..]);
      assert forall i :: 0 <= i < |a| ==> (a + r)[i] == a[i];
      assert forall i :: 0 <= i < |r| ==> (a + r)[|a| + i] == r[i];
      assert NoDup(r) by {
        forall i, j | 0 <= i < j < |r| ensures r[i] != r[j] { assert (a + r)[|a| + i] != (a + r)[|a| + j]; }
      }
      KeptNoDup(leased[1..], keep[1..]);
      var x, y := a[..keep[0]], Kept(leased[1..], keep[1..]);
      forall i, j | 0 <= i < j < |x + y| ensures (x + y)[i] != (x + y)[j] {
        if j < |x| {
          assert (a + r)[i] != (a + r)[j];
        } else if i < |x| {
          assert y[j - |x|] in y;
          KeptInOrder(leased[1..], keep[1..], y[j - |x|]);
          var l :| 0 <= l < |r| && r[l] == y[j - |x|];
          assert (a + r)[i] != (a + r)[|a| + l];
        }
      }
    }
  }

  lemma {:induction false} KeptOfRow(leased: seq<LeaseRow>, keep: seq<int>, i: nat, b: nat)
    requires KeepFits(leased, keep) && i < |leased| && b in leased[i].appended[..keep[i]]
    ensures b in Kept(leased, keep)
  {
    KeepFitsTail(leased, keep);
    if i > 0 { KeptOfRow(leased[1..], keep[1..], i - 1, b); }
  }

  /** Trimming the lease gives every row exactly the blocks its burst covers. */
  lemma TrimmedHeld(c: Config, p: Pool, rows: seq<Row>, others: seq<Row>, leased: seq<LeaseRow>, keep: seq<int>,
                    cuts: seq<seq<Token>>)
    requires c.Valid() && Held(c, p, rows + others) && AllPlanned(rows) && |rows| == |leased| == |cuts|
    requires KeepFits(leased, keep) && NoDup(Flatten(leased)) && forall b :: b in Flatten(leased) ==> b in p.free
    requires forall i :: 0 <= i < |cuts| ==>
      cuts[i] != [] && KeepsPrefix(c, rows[i], cuts[i], leased[i].appended, keep[i])
    ensures var b := BumpedRows(Trimmed(rows, leased, keep), cuts);
      Held(c, Keeping(p, Kept(leased, keep)), b + others) && AllComplete(b)
  {
    var kept := Kept(leased, keep);
    var q := Keeping(p, kept);
    var b := BumpedRows(Trimmed(rows, leased, keep), cuts);
    KeptNoDup(leased, keep);
    forall x | x in kept ensures x in p.free { KeptInOrder(leased, keep, x); }
    KeepingKeeps(p, kept, Owners(rows + others));
    OwnersConcat(rows, others);
    TrimmedOwners(rows, leased, keep, cuts);
    OwnersConcat(b, others);
    assert Owners(b + others) == Owners(rows + others) + multiset(kept);
    hide Wf, Owned, NoDup, Flatten, Keeping, Kept, Keeps, RowOk, AllPlanned, AllComplete, AllOk, Distinct;
    AllOkStable(c, p, q, rows + others);
    KeepsSize(p, q, Owners(rows + others));
    TrimmedOk(c, p, rows, others, leased, keep, cuts);
    BumpedDistinct(rows, b, others);
    SuffixOk(c, q, rows, b, others);
  }

  lemma SuffixOk(c: Config, q: Pool, rows: seq<Row>, b: seq<Row>, others: seq<Row>)
    requires c.Valid() && AllOk(c, q, rows + others) && AllOk(c, q, b) && |b| == |rows|
    ensures AllOk(c, q, b + others)
  {
    hide RowOk;
    forall i | 0 <= i < |b + others| ensures RowOk(c, q, (b + others)[i]) {
      if i >= |b| { assert (b + others)[i] == (rows + others)[i]; }
    }
  }

  lemma TrimmedOk(c: Config, p: Pool, rows: seq<Row>, others: seq<Row>, leased: seq<LeaseRow>, keep: seq<int>,
                  cuts: seq<seq<Token>>)
    requires c.Valid() && FreeList(p) && AllOk(c, p, rows + others) && AllPlanned(rows)
    requires |rows| == |leased| == |cuts| && KeepFits(leased, keep)
    requires Keeps(p, Keeping(p, Kept(leased, keep)), Owners(rows + others))
    requires forall b :: b in Kept(leased, keep) ==> b in p.free
    requires forall i :: 0 <= i < |cuts| ==>
      cuts[i] != [] && KeepsPrefix(c, rows[i], cuts[i], leased[i].appended, keep[i])
    ensures var b := BumpedRows(Trimmed(rows, leased, keep), cuts);
      AllOk(c, Keeping(p, Kept(leased, keep)), b) && AllComplete(b)
      && forall i :: 0 <= i < |rows| ==> b[i].id == rows[i].id
  {
    var kept := Kept(leased, keep);
    var q := Keeping(p, kept);
    var b := BumpedRows(Trimmed(rows, leased, keep), cuts);
    KeepingFresh(p, kept);
    hide FreeList, Keeping, Kept, Keeps, RowOk, Planned, Complete, Bumped, KeepsPrefix, KeepFits;
    forall i | 0 <= i < |rows| ensures RowOk(c, q, b[i]) && Complete(b[i]) && b[i].id == rows[i].id {
      var more := leased[i].appended[..keep[i]];
      forall x | x in more ensures x in kept { KeptOfRow(leased, keep, i, x); }
      assert (rows + others)[i] == rows[i];
      assert RowOk(c, p, (rows + others)[i]);
      OwnersAt(rows + others, i);
      assert Planned(rows[i]);
      PrefixExact(c, rows[i], cuts[i], leased[i].appended, keep[i]);
      BumpedOk(c, p, q, rows[i], cuts[i], more, Owners(rows + others));
      BumpedId(rows[i].(table := rows[i].table + more), cuts[i]);
    }
  }

  lemma BumpedId(s: Row, ts: seq<Token>)
    requires ts != []
    ensures Bumped(s, ts).id == s.id
  {
  }

  lemma PrefixExact(c: Config, s: Row, ts: seq<Token>, appended: seq<nat>, n: int)
    requires c.Valid() && ts != [] && KeepsPrefix(c, s, ts, appended, n)
    ensures 0 <= n <= |appended| && KeepsPrefix(c, s, ts, appended[..n], |appended[..n]|)
  {
  }

  lemma KeepingFresh(p: Pool, kept: seq<nat>)
    requires forall b :: b in kept ==> b in p.free
    requires FreeList(p)
    ensures forall b :: b in kept ==> b < |Keeping(p, kept).blocks| && Keeping(p, kept).blocks[b] == FRESH
  {
  }

  lemma BumpedDistinct(rows: seq<Row>, b: seq<Row>, others: seq<Row>)
    requires |b| == |rows| && Distinct(rows + others) && forall i :: 0 <= i < |rows| ==> b[i].id == rows[i].id
    ensures Distinct(b + others)
  {
    var x, x' := rows + others, b + others;
    forall i | 0 <= i < |x| ensures x'[i].id == x[i].id {}
    forall i, j | 0 <= i < j < |x'| ensures x'[i].id != x'[j].id {
      assert x[i].id != x[j].id;
    }
  }
}
