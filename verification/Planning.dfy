/** When a decode batch speculates, and which results its commit accepts: both directions,
    in terms of the batch alone. */
module Planning {
  import opened Arith
  import opened Types
  import opened Allocator
  import opened Queues
  import opened Scheduling
  import opened States
  import opened Commit
  import opened Leases
  import opened Speculation
  import opened Transactions

  // ----- planning -----

  /** K proposals per row respect every row's limits, and catch-up, proposals and
      verification of the whole batch fit the token budget. */
  ghost predicate Affordable(c: Config, rows: seq<Row>, routeCap: nat, k: int) {
    && 1 <= k <= c.configuredK && k <= routeCap
    && (forall i :: 0 <= i < |rows| ==>
          && |rows[i].toks| + k + 1 <= rows[i].prompt + rows[i].maxTokens
          && |rows[i].toks| + k <= c.maxModelLen)
    && CatchUp(rows) + |rows| + 2 * (|rows| * k) <= c.budget
  }

  ghost predicate Largest(c: Config, rows: seq<Row>, routeCap: nat, k: int) {
    Affordable(c, rows, routeCap, k) && forall j :: Affordable(c, rows, routeCap, j) ==> j <= k
  }

  /** Blocks the rows lack to hold their tokens and k proposals each. */
  function Missing(c: Config, rows: seq<Row>, k: nat): int
    requires c.Valid()
  {
    if rows == [] then 0
    else CeilDiv(|rows[0].toks| + k, c.blockSize) - |rows[0].table| + Missing(c, rows[1..], k)
  }

  lemma AffordableIs(c: Config, rows: seq<Row>, routeCap: nat, k: int)
    requires rows != [] && CatchUp(rows) >= 0
    ensures Affordable(c, rows, routeCap, k) <==> 1 <= k <= EffectiveK(c, rows, routeCap)
  {
    hide EffectiveK, CatchUp;
    if k >= 1 { EffectiveKIsLargest(c, rows, routeCap, k); }
  }

  lemma LargestIs(c: Config, rows: seq<Row>, routeCap: nat)
    requires rows != [] && CatchUp(rows) >= 0
    ensures forall k :: Largest(c, rows, routeCap, k) <==> k >= 1 && k == EffectiveK(c, rows, routeCap)
    ensures EffectiveK(c, rows, routeCap) >= 1 <==> exists k :: Affordable(c, rows, routeCap, k)
  {
    hide EffectiveK, CatchUp, Affordable;
    var n := EffectiveK(c, rows, routeCap);
    forall k ensures Affordable(c, rows, routeCap, k) <==> 1 <= k <= n { AffordableIs(c, rows, routeCap, k); }
    assert n >= 1 ==> Affordable(c, rows, routeCap, n);
  }

  lemma {:induction false} MissingIs(c: Config, rows: seq<Row>, k: nat)
    requires c.Valid() && forall i :: 0 <= i < |rows| ==> 1 <= |rows[i].toks| && |rows[i].table| == CeilDiv(|rows[i].toks|, c.blockSize)
    ensures TotalNeeded(c, rows, HighPositions(rows, k)) == Missing(c, rows, k)
  {
    hide Needed, CeilDiv;
    if rows != [] {
      var s, q := rows[0], rows[1..];
      assert HighPositions(rows, k)[1..] == HighPositions(q, k);
      MissingIs(c, q, k);
      NeededIs(c, s, k);
      HighIs(rows, k);
    }
  }

  /** The decision in both directions. A pure decode batch speculates exactly when the
      workspace is certified, some proposal length is affordable, and the free list covers
      the blocks the largest affordable one needs; that length is then used, and a lease
      is live. Otherwise the batch goes ahead unchanged; planning never fails. */
  lemma PlanExact(c: Config, y: Sys, routeCap: nat, certified: bool)
    requires c.Valid() && PureDecode(c, y)
    ensures var r := PlanSpeculative(c, y, routeCap, certified);
      && (r.Speculate? <==>
            && certified && (exists k :: Affordable(c, y.running, routeCap, k))
            && forall k :: Largest(c, y.running, routeCap, k) ==> Missing(c, y.running, k) <= |y.pool.free|)
      && (!r.Speculate? ==> r == Bypass)
      && (r.Speculate? ==>
            && Largest(c, y.running, routeCap, r.k)
            && Leased(c, y, Sys(r.pool, y.waiting, r.rows, y.mid), r.lease, r.k, false))
  {
    PlanKeeps(c, y, routeCap, certified);
    PureCovered(c, y);
    hide PureDecode, EffectiveK, Reserve, HighPositions, TotalNeeded, Leased, Affordable, Largest, Missing, CatchUp;
    PurePlanned(c, y);
    LargestIs(c, y.running, routeCap);
    var k := EffectiveK(c, y.running, routeCap);
    if k > 0 {
      MissingIs(c, y.running, k);
      PureHeld(c, y);
      ReserveTakes(c, y.pool, y.running, y.waiting, HighPositions(y.running, k));
      assert Largest(c, y.running, routeCap, k);
    }
  }

  lemma PureCovered(c: Config, y: Sys)
    requires c.Valid() && PureDecode(c, y)
    ensures y.running != [] && CatchUp(y.running) >= 0
    ensures forall i :: 0 <= i < |y.running| ==> 1 <= |y.running[i].toks| && |y.running[i].table| == CeilDiv(|y.running[i].toks|, c.blockSize)
  {
    hide PureDecode, Held, Perm, CeilDiv, RowOk, Planned;
    PureRunning(c, y);
    PureHeld(c, y);
    forall i | 0 <= i < |y.running|
      ensures 1 <= |y.running[i].toks| && |y.running[i].table| == CeilDiv(|y.running[i].toks|, c.blockSize)
      ensures y.running[i].draft <= y.running[i].cached
    {
      PlannedCovers(c, y.pool, y.running[i]);
    }
    CatchUpNonNegative(y.running);
  }

  lemma PlannedCovers(c: Config, p: Pool, s: Row)
    requires c.Valid() && RowOk(c, p, s) && Planned(s)
    ensures 1 <= |s.toks| && |s.table| == CeilDiv(|s.toks|, c.blockSize) && s.draft <= s.cached
  {
    hide Contents, CeilDiv;
  }

  // ----- acceptance -----

  /** A verification result as the source's checks describe it: k proposals, an accepted
      prefix of any length up to all of them, one further token, everything in range. */
  ghost predicate Plausible(c: Config, k: nat, r: SpecRow) {
    && |r.proposed| == k && r.accepted <= k
    && (exists last :: r.committed == r.proposed[..r.accepted] + [last])
    && forall t :: t in r.proposed + r.committed ==> 0 <= t && (c.vocab.Some? ==> t < c.vocab.value)
  }

  lemma PlausibleIs(c: Config, k: nat, r: SpecRow)
    ensures ValidResult(c, k, r) <==> Plausible(c, k, r)
  {
    if ValidResult(c, k, r) {
      assert r.committed == r.proposed[..r.accepted] + [r.committed[r.accepted]];
      forall t | t in r.proposed + r.committed ensures 0 <= t && (c.vocab.Some? ==> t < c.vocab.value) {
        if t in r.proposed {
          var i :| 0 <= i < |r.proposed| && r.proposed[i] == t;
          assert InVocabulary(c, r.proposed[i]);
        } else {
          var i :| 0 <= i < |r.committed| && r.committed[i] == t;
          assert InVocabulary(c, r.committed[i]);
        }
      }
    }
    if Plausible(c, k, r) {
      forall i | 0 <= i < |r.proposed| ensures InVocabulary(c, r.proposed[i]) { assert r.proposed[i] in r.proposed + r.committed; }
      forall i | 0 <= i < |r.committed| ensures InVocabulary(c, r.committed[i]) { assert r.committed[i] in r.proposed + r.committed; }
    }
  }

  /** The commit of a live lease takes every plausible result, full acceptance and none
      included, and nothing else. */
  lemma CommitAccepts(c: Config, base: Sys, y: Sys, lease: Lease, k: nat, prepared: bool, results: seq<SpecRow>)
    requires c.Valid() && Leased(c, base, y, lease, k, prepared)
    ensures CommitSpeculative(c, y, lease, k, results).CommitOk? <==>
      |results| == |y.running| && forall i :: 0 <= i < |results| ==> Plausible(c, k, results[i])
  {
    LeasedNonEmpty(c, base, y, lease, k, prepared);
    RunningFields(c, base, y, lease, k, prepared, 0);
    hide Leased, ValidResult, Plausible, Finalize, Cuts, BurstRows, Surviving, CommitsAs, Idle;
    forall i | 0 <= i < |results| ensures ValidResult(c, k, results[i]) <==> Plausible(c, k, results[i]) {
      PlausibleIs(c, k, results[i]);
    }
    if |results| == |y.running| && forall i :: 0 <= i < |results| ==> Plausible(c, k, results[i]) {
      CommitKeeps(c, base, y, lease, k, prepared, results);
    }
  }
}
