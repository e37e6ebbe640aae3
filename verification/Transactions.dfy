/** The speculative transaction keeps every invariant: planning, preparing target
    writes, committing a burst, and aborting at any point in between. */
module Transactions {
  import opened Arith
  import opened Types
  import opened Allocator
  import opened Queues
  import opened Scheduling
  import opened States
  import opened Progress
  import opened Commit
  import opened Leases
  import opened Speculation
  import opened Burst

  /** A pure decode batch, scheduled and not yet run. */
  ghost predicate PureDecode(c: Config, y: Sys)
    requires c.Valid()
  {
    Ready(c, y, Ids(y.running)) && NoChunk(y) && AllPlanned(y.running) && y.running != []
  }

  /** The state a rollback of the lease returns to: `base` before target writes are
      prepared, `base` without the leased blocks' old contents afterwards. */
  function LeaseBase(base: Sys, lease: Lease, prepared: bool): Sys {
    if prepared then base.(pool := Evicted(base.pool, lease.order)) else base
  }

  ghost predicate SuffixFor(c: Config, s: Row, r: LeaseRow, k: nat)
    requires c.Valid()
  {
    && |r.appended| == CeilDiv(|s.toks| + k, c.blockSize) - CeilDiv(|s.toks|, c.blockSize)
    && k + 1 <= s.Remaining()
  }

  /** A lease for k proposals per row is live; `base` is the scheduled state it was
      taken from. */
  ghost predicate Leased(c: Config, base: Sys, y: Sys, lease: Lease, k: nat, prepared: bool)
    requires c.Valid()
  {
    && PureDecode(c, base) && k >= 1
    && y.waiting == base.waiting && y.mid == base.mid
    && lease.order <= base.pool.free
    && LeaseOf(LeaseBase(base, lease, prepared).pool, base.running, y.pool, y.running, lease)
    && (forall i :: 0 <= i < |base.running| ==> SuffixFor(c, base.running[i], lease.rows[i], k))
  }

  lemma PureHeld(c: Config, y: Sys)
    requires c.Valid() && PureDecode(c, y)
    ensures Held(c, y.pool, y.running + y.waiting)
    ensures forall i :: 0 <= i < |y.running| ==> RowOk(c, y.pool, y.running[i]) && Planned(y.running[i])
  {
    hide Held, Planned, Complete, Quiet, Partial, RowOk, Perm;
    RowsPlain(y);
    WaitFirst(y.waiting, y.running);
    HeldPerm(c, y.pool, Rows(y), y.running + y.waiting);
    forall i | 0 <= i < |y.running| ensures RowOk(c, y.pool, y.running[i]) {
      assert (y.running + y.waiting)[i] == y.running[i];
      HeldMember(c, y.pool, y.running + y.waiting, y.running[i]);
    }
  }

  lemma PurePlanned(c: Config, y: Sys)
    requires c.Valid() && PureDecode(c, y)
    ensures AllPlanned(y.running)
  {
  }

  lemma {:induction false} CatchUpNonNegative(rows: seq<Row>)
    requires forall i :: 0 <= i < |rows| ==> rows[i].draft <= rows[i].cached
    ensures CatchUp(rows) >= 0
  {
    if rows != [] {
      assert forall i :: 0 <= i < |rows| - 1 ==> rows[1..][i] == rows[i + 1];
      CatchUpNonNegative(rows[1..]);
    }
  }

  lemma PureRunning(c: Config, y: Sys)
    requires c.Valid() && PureDecode(c, y)
    ensures y.running != []
  {
  }

  lemma NotPrepared(base: Sys, lease: Lease)
    ensures LeaseBase(base, lease, false) == base
  {
  }

  lemma PlanLeased(c: Config, y: Sys, routeCap: nat, k: nat, r: Reservation)
    requires c.Valid() && PureDecode(c, y) && k == EffectiveK(c, y.running, routeCap) && k >= 1 && r.Reserved?
    requires LeaseOf(y.pool, y.running, r.pool, r.rows, r.lease)
    requires r.lease.order == y.pool.free[..|r.lease.order|] && |r.lease.order| <= |y.pool.free|
    requires |r.lease.rows| == |y.running|
    requires forall i :: 0 <= i < |y.running| ==>
      |r.lease.rows[i].appended| == Needed(c, y.running[i], HighPositions(y.running, k)[i])
    ensures Leased(c, y, Sys(r.pool, y.waiting, r.rows, y.mid), r.lease, k, false)
  {
    hide PureDecode, LeaseOf, SuffixFor, EffectiveK, HighPositions, Needed, Held, RowOk, Planned, LeaseBase;
    PureHeld(c, y);
    PureRunning(c, y);
    assert LeaseBase(y, r.lease, false) == y by { NotPrepared(y, r.lease); }
    PlanSuffixes(c, y, routeCap, k, r.lease.rows);
  }

  /** Planning never fails on a pure decode batch: it bypasses, changing nothing, or
      takes a lease for the largest allowed proposal length. */
  lemma PlanKeeps(c: Config, y: Sys, routeCap: nat, certified: bool)
    requires c.Valid() && PureDecode(c, y)
    ensures var r := PlanSpeculative(c, y, routeCap, certified);
      && !r.PlanFailed?
      && (r.Speculate? ==>
            && r.k == EffectiveK(c, y.running, routeCap)
            && Leased(c, y, Sys(r.pool, y.waiting, r.rows, y.mid), r.lease, r.k, false))
  {
    hide PureDecode, Held, EffectiveK, Reserve, LeaseOf, RowOk, Ready, NoChunk, SuffixFor, HighPositions, Planned, TotalNeeded,
         Leased, AllPlanned;
    PureHeld(c, y);
    PurePlanned(c, y);
    PureRunning(c, y);
    var k := EffectiveK(c, y.running, routeCap);
    if k > 0 && certified {
      var highs := HighPositions(y.running, k);
      ReserveTakes(c, y.pool, y.running, y.waiting, highs);
      var r := Reserve(c, y.pool, y.running, highs);
      if r.Reserved? {
        LeaseSizes(y.pool, y.running, r.pool, r.rows, r.lease);
        PlanLeased(c, y, routeCap, k, r);
      }
    }
  }

  lemma LeaseSizes(p: Pool, rows: seq<Row>, q: Pool, rows': seq<Row>, lease: Lease)
    requires LeaseOf(p, rows, q, rows', lease)
    ensures |rows| == |rows'| == |lease.rows|
    ensures lease.order <= p.free
  {
    hide Tables, Flatten, GrownAs;
  }

  lemma HighIs(rows: seq<Row>, k: nat)
    ensures |HighPositions(rows, k)| == |rows|
    ensures forall i :: 0 <= i < |rows| && |rows[i].toks| >= 1 ==> HighPositions(rows, k)[i] == |rows[i].toks| + k - 1
  {
  }

  lemma PlanSuffixes(c: Config, y: Sys, routeCap: nat, k: nat, leased: seq<LeaseRow>)
    requires c.Valid() && y.running != [] && k == EffectiveK(c, y.running, routeCap) && k >= 1
    requires forall i :: 0 <= i < |y.running| ==> RowOk(c, y.pool, y.running[i]) && Planned(y.running[i])
    requires |leased| == |y.running| && |HighPositions(y.running, k)| == |y.running|
    requires forall i :: 0 <= i < |y.running| ==>
      |leased[i].appended| == Needed(c, y.running[i], HighPositions(y.running, k)[i])
    ensures forall i :: 0 <= i < |y.running| ==> SuffixFor(c, y.running[i], leased[i], k)
  {
    hide EffectiveK, Needed, Contents, HighPositions, CeilDiv, CatchUp;
    assert CatchUp(y.running) >= 0 by {
      forall i | 0 <= i < |y.running| ensures y.running[i].draft <= y.running[i].cached {
        assert RowOk(c, y.pool, y.running[i]);
      }
      CatchUpNonNegative(y.running);
    }
    EffectiveKIsLargest(c, y.running, routeCap, k);
    HighIs(y.running, k);
    forall i | 0 <= i < |y.running| ensures SuffixFor(c, y.running[i], leased[i], k) {
      var s := y.running[i];
      assert RowOk(c, y.pool, s) && Planned(s);
      NeededIs(c, s, k);
    }
  }

  lemma PrefixIn(a: seq<nat>, b: seq<nat>)
    requires a <= b
    ensures forall x :: x in a ==> x in b
  {
  }

  /** The lease check passes, and afterwards the leased blocks' old contents are
      gone for good. */
  lemma PrepareKeeps(c: Config, base: Sys, y: Sys, lease: Lease, k: nat)
    requires c.Valid() && Leased(c, base, y, lease, k, false)
    ensures Live(y.pool, y.running, lease)
    ensures Leased(c, base, y, Prepare(lease), k, true)
  {
    hide PureDecode, LeaseOf, SuffixFor, Live, Evicted;
    LeaseIsLive(base.pool, base.running, y.pool, y.running, lease);
    PrepareEvicts(base.pool, base.running, y.pool, y.running, lease);
  }

  // ----- commit -----

  lemma BaseHeld(c: Config, base: Sys, y: Sys, lease: Lease, k: nat, prepared: bool)
    requires c.Valid() && Leased(c, base, y, lease, k, prepared)
    ensures var p := LeaseBase(base, lease, prepared).pool;
      && Held(c, p, base.running + base.waiting)
      && (forall b :: b in lease.order ==> b in p.free)
  {
    PureHeld(c, base);
    PrefixIn(lease.order, base.pool.free);
    hide Held, PureDecode, LeaseOf, SuffixFor, Evicted;
    EvictedHeld(c, base.pool, lease.order, base.running + base.waiting);
  }

  lemma RunningFields(c: Config, base: Sys, y: Sys, lease: Lease, k: nat, prepared: bool, i: nat)
    requires c.Valid() && Leased(c, base, y, lease, k, prepared) && i < |base.running|
    ensures |y.running| == |base.running| == |lease.rows|
    ensures y.running[i] == base.running[i].(table := base.running[i].table + lease.rows[i].appended)
    ensures lease.rows[i].before == base.running[i].table
  {
    hide Took, PureDecode, Flatten, Tables, Evicted, SuffixFor;
    assert GrownAs(base.running[i], y.running[i], lease.rows[i]);
  }

  /** A commit always fits its lease: the blocks a row keeps lie between none and
      its whole leased suffix. */
  lemma CommitFitsLease(c: Config, s: Row, s': Row, r: LeaseRow, k: nat, burst: seq<Token>)
    requires c.Valid() && Fits(c, s) && Planned(s) && SuffixFor(c, s, r, k)
    requires |s.table| == CeilDiv(|s.toks|, c.blockSize) && r.before == s.table
    requires s' == s.(table := s.table + r.appended) && 1 <= |burst| <= k + 1
    ensures var ts := Cut(c, s', burst);
      && CutIs(c, s', burst, ts)
      && CachedAfter(s', ts) >= 0
      && KeepsPrefix(c, s, ts, r.appended, CeilDiv(CachedAfter(s', ts), c.blockSize) - |r.before|)
  {
    CutSpec(c, s', burst);
    var ts := Cut(c, s', burst);
    CeilMono(|s.toks|, |s.toks| + |ts| - 1, c.blockSize);
    CeilMono(|s.toks| + |ts| - 1, |s.toks| + k, c.blockSize);
  }

  ghost predicate ResultsValid(c: Config, k: nat, results: seq<SpecRow>, n: nat) {
    |results| == n && forall i :: 0 <= i < n ==> ValidResult(c, k, results[i])
  }

  lemma ResultsCount(c: Config, k: nat, results: seq<SpecRow>, n: nat)
    requires ResultsValid(c, k, results, n)
    ensures |results| == n
  {
  }

  lemma CommitCutAt(c: Config, base: Sys, y: Sys, lease: Lease, k: nat, prepared: bool, results: seq<SpecRow>, i: nat)
    requires c.Valid() && Leased(c, base, y, lease, k, prepared) && ResultsValid(c, k, results, |base.running|)
    requires |y.running| == |base.running| == |lease.rows| == |results| && i < |results|
    ensures var cuts := Cuts(c, y.running, results);
      var keep := KeepCounts(c, y.running, lease.rows, cuts);
      && cuts[i] != [] && CutIs(c, y.running[i], results[i].committed, cuts[i])
      && KeepsPrefix(c, base.running[i], cuts[i], lease.rows[i].appended, keep[i])
      && 0 <= keep[i] <= |lease.rows[i].appended|
  {
    hide Leased, CutIs, KeepsPrefix, Cut, ValidResult, CeilDiv;
    var cuts := Cuts(c, y.running, results);
    var keep := KeepCounts(c, y.running, lease.rows, cuts);
    CommitCut(c, base, y, lease, k, prepared, results[i], i);
    KeepsWithin(c, base.running[i], cuts[i], lease.rows[i].appended, keep[i]);
  }

  lemma CommitCuts(c: Config, base: Sys, y: Sys, lease: Lease, k: nat, prepared: bool, results: seq<SpecRow>)
    requires c.Valid() && Leased(c, base, y, lease, k, prepared) && ResultsValid(c, k, results, |base.running|)
    ensures |y.running| == |base.running| == |lease.rows|
    ensures var cuts := Cuts(c, y.running, results);
      var keep := KeepCounts(c, y.running, lease.rows, cuts);
      && KeepFits(lease.rows, keep)
      && forall i :: 0 <= i < |cuts| ==>
          && cuts[i] != [] && CutIs(c, y.running[i], results[i].committed, cuts[i])
          && KeepsPrefix(c, base.running[i], cuts[i], lease.rows[i].appended, keep[i])
  {
    hide Leased, CutIs, KeepsPrefix, Cut, ValidResult, CeilDiv, ResultsValid;
    LeasedNonEmpty(c, base, y, lease, k, prepared);
    RunningFields(c, base, y, lease, k, prepared, 0);
    ResultsCount(c, k, results, |base.running|);
    var cuts := Cuts(c, y.running, results);
    var keep := KeepCounts(c, y.running, lease.rows, cuts);
    forall i | 0 <= i < |cuts|
      ensures cuts[i] != [] && CutIs(c, y.running[i], results[i].committed, cuts[i])
      ensures KeepsPrefix(c, base.running[i], cuts[i], lease.rows[i].appended, keep[i])
      ensures 0 <= keep[i] <= |lease.rows[i].appended|
    {
      CommitCutAt(c, base, y, lease, k, prepared, results, i);
    }
  }

  lemma LeasedNonEmpty(c: Config, base: Sys, y: Sys, lease: Lease, k: nat, prepared: bool)
    requires c.Valid() && Leased(c, base, y, lease, k, prepared)
    ensures |base.running| > 0
  {
  }

  lemma CommitCut(c: Config, base: Sys, y: Sys, lease: Lease, k: nat, prepared: bool, result: SpecRow, i: nat)
    requires c.Valid() && Leased(c, base, y, lease, k, prepared) && i < |base.running| && ValidResult(c, k, result)
    ensures |y.running| == |base.running| == |lease.rows|
    ensures var ts := Cut(c, y.running[i], result.committed);
      && CutIs(c, y.running[i], result.committed, ts) && ts != [] && CachedAfter(y.running[i], ts) >= 0
      && KeepsPrefix(c, base.running[i], ts, lease.rows[i].appended,
                     CeilDiv(CachedAfter(y.running[i], ts), c.blockSize) - |lease.rows[i].before|)
  {
    hide Leased, Fits, Planned, SuffixFor, CutIs, KeepsPrefix, Cut, ValidResult, CeilDiv;
    LeasedRow(c, base, y, lease, k, prepared, i);
    ResultLength(c, k, result);
    CommitFitsLease(c, base.running[i], y.running[i], lease.rows[i], k, result.committed);
    CutNonEmpty(c, y.running[i], result.committed, Cut(c, y.running[i], result.committed));
  }

  lemma ResultLength(c: Config, k: nat, result: SpecRow)
    requires ValidResult(c, k, result)
    ensures 1 <= |result.committed| <= k + 1
  {
    hide InVocabulary;
  }

  lemma LeasedRow(c: Config, base: Sys, y: Sys, lease: Lease, k: nat, prepared: bool, i: nat)
    requires c.Valid() && Leased(c, base, y, lease, k, prepared) && i < |base.running|
    ensures |y.running| == |base.running| == |lease.rows|
    ensures var s := base.running[i];
      && Fits(c, s) && Planned(s) && SuffixFor(c, s, lease.rows[i], k)
      && |s.table| == CeilDiv(|s.toks|, c.blockSize) && lease.rows[i].before == s.table
      && y.running[i] == s.(table := s.table + lease.rows[i].appended)
  {
    PureHeld(c, base);
    hide PureDecode, LeaseOf, Evicted, Held, Contents, Fits, SuffixFor, CeilDiv;
    RunningFields(c, base, y, lease, k, prepared, i);
    assert RowOk(c, base.pool, base.running[i]) && Planned(base.running[i]);
  }

  lemma CutNonEmpty(c: Config, s: Row, burst: seq<Token>, ts: seq<Token>)
    requires CutIs(c, s, burst, ts)
    ensures ts != []
  {
  }

  lemma KeepsWithin(c: Config, s: Row, ts: seq<Token>, appended: seq<nat>, n: int)
    requires c.Valid() && ts != [] && KeepsPrefix(c, s, ts, appended, n)
    ensures 0 <= n <= |appended|
  {
  }

  lemma {:induction false} SurvivorsRedrafted(c: Config, rows: seq<Row>, cuts: seq<seq<Token>>, k: nat,
                                              post: seq<Row>, burst: seq<Row>)
    requires |rows| == |cuts| == |post| == |burst| && k >= 1
    requires forall i :: 0 <= i < |cuts| ==> cuts[i] != []
    requires forall i :: 0 <= i < |rows| ==> AboutToCommit(rows[i])
    requires forall i :: 0 <= i < |rows| ==> SameButDraft(rows[i], cuts[i], k, post[i], burst[i])
    requires forall i :: 0 <= i < |rows| ==> Committed(c, Bumped(rows[i], cuts[i]), Last(cuts[i]), post[i])
    ensures Redrafted(Surviving(post), Surviving(burst))
  {
    if rows != [] {
      assert forall i :: 0 <= i < |rows| - 1 ==>
        rows[1..][i] == rows[i + 1] && cuts[1..][i] == cuts[i + 1] && post[1..][i] == post[i + 1] && burst[1..][i] == burst[i + 1];
      SurvivorsRedrafted(c, rows[1..], cuts[1..], k, post[1..], burst[1..]);
      assert SameButDraft(rows[0], cuts[0], k, post[0], burst[0]);
      assert Committed(c, Bumped(rows[0], cuts[0]), Last(cuts[0]), post[0]);
      assert AboutToCommit(rows[0]);
      if post[0].status != Finished {
        assert burst[0] == post[0].(draft := burst[0].draft) && burst[0].draft <= post[0].cached;
        RedraftedCons(post[0], burst[0], Surviving(post[1..]), Surviving(burst[1..]));
      }
    }
  }

  lemma RedraftedCons(s: Row, s': Row, q: seq<Row>, q': seq<Row>)
    requires Redrafted(q, q') && s' == s.(draft := s'.draft) && s'.draft <= s.cached
    ensures Redrafted([s] + q, [s'] + q')
  {
  }

  lemma RedraftedDecoding(q: seq<Row>, q': seq<Row>)
    requires Redrafted(q, q') && AllDecoding(q)
    ensures AllDecoding(q')
  {
    forall i | 0 <= i < |q'| ensures Decoding(q'[i]) {
      assert q'[i] == q[i].(draft := q'[i].draft);
      assert Decoding(q[i]);
    }
  }

  /** What a burst commit does, in terms of the ordinary commit: the rows of `base`
      with their kept blocks and all but the last token of their cut appended,
      committed with that last token, then given their draft coverage. */
  ghost predicate CommitsAs(c: Config, base: Sys, y: Sys, lease: Lease, k: nat, prepared: bool, results: seq<SpecRow>,
                            y': Sys, events: seq<Event>)
    requires c.Valid() && Leased(c, base, y, lease, k, prepared) && ResultsValid(c, k, results, |base.running|)
  {
    CommitCuts(c, base, y, lease, k, prepared, results);
    var cuts := Cuts(c, y.running, results);
    var keep := KeepCounts(c, y.running, lease.rows, cuts);
    var trimmed := Trimmed(base.running, lease.rows, keep);
    var post := PostRows(c, Keeping(LeaseBase(base, lease, prepared).pool, Kept(lease.rows, keep)),
                         BumpedRows(trimmed, cuts), Lasts(cuts));
    && |post.rows| == |trimmed| == |cuts|
    && y'.pool == post.pool && y'.waiting == base.waiting && y'.mid == base.mid
    && |y'.running| == |Surviving(post.rows)|
    && Redrafted(Surviving(post.rows), y'.running)
    && events == BurstStream(trimmed, cuts, post.rows)
  }

  lemma LeasedParts(c: Config, base: Sys, y: Sys, lease: Lease, k: nat, prepared: bool)
    requires c.Valid() && Leased(c, base, y, lease, k, prepared)
    ensures LeaseOf(LeaseBase(base, lease, prepared).pool, base.running, y.pool, y.running, lease)
    ensures y.waiting == base.waiting && y.mid == base.mid && k >= 1 && PureDecode(c, base)
  {
    hide LeaseOf;
  }

  lemma CommitUnfolds(c: Config, base: Sys, y: Sys, lease: Lease, k: nat, prepared: bool, results: seq<SpecRow>)
    requires c.Valid() && Leased(c, base, y, lease, k, prepared) && ResultsValid(c, k, results, |base.running|)
    ensures |y.running| == |base.running| == |lease.rows|
    ensures var cuts := Cuts(c, y.running, results);
      var keep := KeepCounts(c, y.running, lease.rows, cuts);
      && KeepFits(lease.rows, keep)
      && var x := BurstRows(c, Keeping(LeaseBase(base, lease, prepared).pool, Kept(lease.rows, keep)),
                            Trimmed(base.running, lease.rows, keep), cuts, k);
        CommitSpeculative(c, y, lease, k, results) ==
          CommitOk(Sys(x.pool, base.waiting, Surviving(x.rows), base.mid), x.events)
  {
    hide Leased, LeaseOf, Finalize, KeepFits, BurstRows, CutIs, KeepsPrefix, ValidResult, Surviving, LeaseBase, Cuts,
      KeepCounts, Keeping, Kept;
    LeasedParts(c, base, y, lease, k, prepared);
    CommitCuts(c, base, y, lease, k, prepared, results);
    var p := LeaseBase(base, lease, prepared).pool;
    var cuts := Cuts(c, y.running, results);
    var keep := KeepCounts(c, y.running, lease.rows, cuts);
    FinalizeKeeping(p, base.running, y.pool, y.running, lease, keep);
    var r := Finalize(y.pool, y.running, lease, keep);
    assert r.rows == Trimmed(base.running, lease.rows, keep);
  }

  /** The burst commit succeeds on every valid result and returns to an idle state. */
  lemma CommitKeeps(c: Config, base: Sys, y: Sys, lease: Lease, k: nat, prepared: bool, results: seq<SpecRow>)
    requires c.Valid() && Leased(c, base, y, lease, k, prepared) && ResultsValid(c, k, results, |base.running|)
    ensures var r := CommitSpeculative(c, y, lease, k, results);
      && r.CommitOk? && Idle(c, r.sys)
      && CommitsAs(c, base, y, lease, k, prepared, results, r.sys, r.events)
  {
    CommitUnfolds(c, base, y, lease, k, prepared, results);
    CommitCuts(c, base, y, lease, k, prepared, results);
    BaseHeld(c, base, y, lease, k, prepared);
    var p := LeaseBase(base, lease, prepared).pool;
    var cuts := Cuts(c, y.running, results);
    var keep := KeepCounts(c, y.running, lease.rows, cuts);
    var rows := Trimmed(base.running, lease.rows, keep);
    BurstKeeps(c, p, base, lease.rows, keep, cuts, k) by {
      assert lease.order == Flatten(lease.rows) && NoDup(lease.order);
    }
  }

  lemma TrimmedAbout(c: Config, base: Sys, leased: seq<LeaseRow>, keep: seq<int>)
    requires c.Valid() && PureDecode(c, base) && |base.running| == |leased| && KeepFits(leased, keep)
    ensures var rows := Trimmed(base.running, leased, keep);
      |rows| == |base.running| && forall i :: 0 <= i < |rows| ==> AboutToCommit(rows[i])
  {
    PurePlanned(c, base);
    hide PureDecode, KeepFits;
    forall i | 0 <= i < |base.running| ensures AboutToCommit(Trimmed(base.running, leased, keep)[i]) {
      assert Planned(base.running[i]);
    }
  }

  /** Whoever survives a burst leaves the engine between steps. */
  lemma BurstIdle(c: Config, base: Sys, p: Pool, running: seq<Row>)
    requires c.Valid() && PureDecode(c, base) && |running| <= |base.running|
    requires Held(c, p, running + base.waiting) && AllDecoding(running)
    ensures Idle(c, Sys(p, base.waiting, running, base.mid))
  {
    hide Held, AllPlanned, AllComplete, AllDecoding, Perm, WaitShape, NoChunk;
    WaitFirst(base.waiting, running);
    HeldPerm(c, p, running + base.waiting, base.waiting + running);
    RowsPlain(Sys(p, base.waiting, running, base.mid));
    ShapeOfWaiting(base, p, running);
  }

  /** The commit core, on the trimmed rows. */
  lemma BurstKeeps(c: Config, p: Pool, base: Sys, leased: seq<LeaseRow>, keep: seq<int>, cuts: seq<seq<Token>>, k: nat)
    requires c.Valid() && PureDecode(c, base) && Held(c, p, base.running + base.waiting) && k >= 1
    requires |base.running| == |leased| == |cuts| && KeepFits(leased, keep)
    requires NoDup(Flatten(leased)) && forall b :: b in Flatten(leased) ==> b in p.free
    requires forall i :: 0 <= i < |cuts| ==>
      cuts[i] != [] && KeepsPrefix(c, base.running[i], cuts[i], leased[i].appended, keep[i])
    ensures var rows := Trimmed(base.running, leased, keep);
      var q := Keeping(p, Kept(leased, keep));
      var x := BurstRows(c, q, rows, cuts, k);
      var post := PostRows(c, q, BumpedRows(rows, cuts), Lasts(cuts));
      && Idle(c, Sys(x.pool, base.waiting, Surviving(x.rows), base.mid))
      && x.pool == post.pool && |post.rows| == |rows| && Redrafted(Surviving(post.rows), Surviving(x.rows))
      && x.events == BurstStream(rows, cuts, post.rows)
  {
    hide Held, NoDup, Flatten, KeepFits, KeepsPrefix, Keeping, Kept, PostRows, BurstRows, AllPlanned, AllComplete,
      Surviving, Redrafted, AllDecoding, SameButDraft, Committed, Bumped, BurstStream, Perm, WaitShape, NoChunk, AboutToCommit,
      PureDecode, Trimmed;
    var rows := Trimmed(base.running, leased, keep);
    var q := Keeping(p, Kept(leased, keep));
    TrimmedAbout(c, base, leased, keep);
    var b := BumpedRows(rows, cuts);
    PurePlanned(c, base);
    TrimmedHeld(c, p, base.running, base.waiting, leased, keep, cuts);
    BurstRowsArePost(c, q, rows, cuts, k);
    PostRowsShape(c, q, b, Lasts(cuts));
    PostRowsKeeps(c, q, b, Lasts(cuts), base.waiting);
    var x := BurstRows(c, q, rows, cuts, k);
    var post := PostRows(c, q, b, Lasts(cuts));
    SurvivorsRedrafted(c, rows, cuts, k, post.rows, x.rows);
    RedraftHeld(c, post.pool, Surviving(post.rows), Surviving(x.rows), base.waiting);
    RedraftedDecoding(Surviving(post.rows), Surviving(x.rows));
    SurvivingCount(x.rows);
    BurstIdle(c, base, x.pool, Surviving(x.rows));
  }

  lemma ShapeOfWaiting(y: Sys, p: Pool, running: seq<Row>)
    requires WaitShape(y) && NoChunk(y)
    ensures WaitShape(Sys(p, y.waiting, running, y.mid)) && NoChunk(Sys(p, y.waiting, running, y.mid))
  {
  }
}
