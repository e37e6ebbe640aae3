/** Which cache slots the forward pass of a reachable step writes, and why no two of
    those writes can meet. */
module Writes {
  import opened Arith
  import opened Types
  import opened Allocator
  import opened Queues
  import opened Scheduling
  import opened States
  import opened Leases
  import opened Transactions
  import opened Truth
  import opened Protocol
  import opened Safety
  import opened Slots

  function LiveRows(w: World): seq<Row> { w.sys.running + w.sys.waiting }

  /** The target pass of this step writes position a of row i: a scheduled position, or
      under a lease one of the k + 1 verified positions. */
  predicate Writes(w: World, i: nat, a: nat)
    requires i < |LiveRows(w)|
  {
    var s := LiveRows(w)[i];
    match w.phase
    case Free => false
    case Stalled => false
    case Batch(_, _, _) => s.cached <= a < s.cached + s.sched
    case Shadow(_) => s.cached <= a < s.cached + s.sched
    case Leasing(_, _, k, _, _, _) => i < |w.sys.running| && s.cached <= a <= |s.toks| + k - 1
  }

  lemma InsideTable(c: Config, s: Row, end: nat, a: nat)
    requires c.Valid() && CeilDiv(end, c.blockSize) <= |s.table| && a < end
    ensures a / c.blockSize < |s.table|
  {
    HighestPosition(a, c.blockSize);
    CeilMono(a + 1, end, c.blockSize);
  }

  /** Outside a lease every live row's table covers its scheduled positions exactly. */
  lemma BatchCovered(c: Config, w: World, i: nat)
    requires c.Valid() && Shape(c, w) && (w.phase.Batch? || w.phase.Shadow?) && i < |LiveRows(w)|
    ensures var s := LiveRows(w)[i];
      s.cached + s.sched <= |s.toks| && |s.table| == CeilDiv(s.cached + s.sched, c.blockSize)
  {
    hide Ready, PureDecode, Held;
    var q := LiveRows(w);
    if w.phase.Batch? {
      ReadyHeld(c, w.sys, w.phase.ids);
      HeldPerm(c, w.sys.pool, Rows(w.sys), q);
    } else {
      PureHeld(c, w.sys);
    }
    HeldMember(c, w.sys.pool, q, q[i]);
  }

  /** Under a lease every running row's table covers its k + 1 verified positions. */
  lemma LeaseCovered(c: Config, w: World, i: nat)
    requires c.Valid() && Shape(c, w) && w.phase.Leasing? && i < |w.sys.running|
    ensures CeilDiv(|w.sys.running[i].toks| + w.phase.k, c.blockSize) <= |w.sys.running[i].table|
  {
    hide Leased;
    var ph := w.phase;
    LeasedCovered(c, ph.base, w.sys, ph.lease, ph.k, ph.prepared, i);
  }

  lemma LeasedCovered(c: Config, base: Sys, y: Sys, lease: Lease, k: nat, prepared: bool, i: nat)
    requires c.Valid() && Leased(c, base, y, lease, k, prepared) && i < |y.running|
    ensures CeilDiv(|y.running[i].toks| + k, c.blockSize) <= |y.running[i].table|
  {
    hide PureDecode, LeaseOf, LeaseBase, CeilDiv, Planned, RowOk, Held, SuffixFor;
    LeasedNonEmpty(c, base, y, lease, k, prepared);
    RunningFields(c, base, y, lease, k, prepared, 0);
    RunningFields(c, base, y, lease, k, prepared, i);
    PureHeld(c, base);
    assert SuffixFor(c, base.running[i], lease.rows[i], k);
    hide Leased;
    PlannedCovered(c, base.pool, base.running[i], lease.rows[i], k);
  }

  lemma PlannedCovered(c: Config, p: Pool, s: Row, r: LeaseRow, k: nat)
    requires c.Valid() && RowOk(c, p, s) && Planned(s) && SuffixFor(c, s, r, k)
    ensures CeilDiv(|s.toks| + k, c.blockSize) == |s.table + r.appended|
  {
    hide Contents, Fits, CeilDiv;
  }

  lemma WritesFit(c: Config, w: World, i: nat, a: nat)
    requires c.Valid() && Shape(c, w) && i < |LiveRows(w)| && Writes(w, i, a)
    ensures LiveRows(w)[i].cached <= a && a / c.blockSize < |LiveRows(w)[i].table|
  {
    hide Shape, CeilDiv;
    var s := LiveRows(w)[i];
    if w.phase.Leasing? {
      LeaseCovered(c, w, i);
      InsideTable(c, s, |s.toks| + w.phase.k, a);
    } else {
      BatchCovered(c, w, i);
      InsideTable(c, s, s.cached + s.sched, a);
    }
  }

  /** Write isolation over every run: a slot the target pass writes lies in a used block
      that no other row, no second position of the row's table and no index entry names,
      and that publishes nothing; two different writes of one pass have different slots. */
  lemma WritesIsolated(c: Config, run: seq<World>, acts: seq<Action>, n: nat, i: nat, a: nat, j: nat, b: nat)
    requires c.Valid() && Run(c, run, acts) && n < |run|
    requires var w := run[n]; i < |LiveRows(w)| && j < |LiveRows(w)| && Writes(w, i, a) && Writes(w, j, b)
    ensures var w, bs := run[n], c.blockSize;
      var s, r := LiveRows(w)[i], LiveRows(w)[j];
      && a / bs < |s.table| && b / bs < |r.table|
      && (var x := s.table[a / bs];
          && x in w.sys.pool.used && x !in w.sys.pool.free && x < |w.sys.pool.blocks|
          && w.sys.pool.blocks[x] == FRESH && Owners(LiveRows(w))[x] == 1
          && forall h :: h in w.sys.pool.index ==> w.sys.pool.index[h] != x)
      && (i != j || a != b ==> SlotOf(s.table, bs, a) != SlotOf(r.table, bs, b))
  {
    hide Shape, Step, Writes, Isolated, Owners;
    var w := run[n];
    RunShape(c, run, acts, n);
    ShapeIsolated(c, w);
    WritesFit(c, w, i, a);
    WritesFit(c, w, j, b);
    WrittenBlockIsPrivate(c, w.sys.pool, LiveRows(w), i, a);
    if i != j || a != b { WrittenSlotsDiffer(c, w.sys.pool, LiveRows(w), i, a, j, b); }
  }

  /** In a reachable batch the scheduled rows can be packed, and in a decode batch the
      last block of every table is the block of the row's last token. */
  lemma BatchPackable(c: Config, run: seq<World>, acts: seq<Action>, n: nat, i: nat)
    requires c.Valid() && Run(c, run, acts) && n < |run| && i < |LiveRows(run[n])|
    requires run[n].phase.Batch? || run[n].phase.Shadow?
    requires LiveRows(run[n])[i].sched >= 1
    ensures var s := LiveRows(run[n])[i];
      && RowFits(s, c.blockSize)
      && ((run[n].phase.Shadow? || run[n].phase.decode) && i < |run[n].sys.running| ==> |s.table| == CeilDiv(|s.toks|, c.blockSize))
  {
    hide Step, CeilDiv, Ready, Held;
    var w := run[n];
    RunShape(c, run, acts, n);
    BatchCovered(c, w, i);
    var s := LiveRows(w)[i];
    InsideTable(c, s, s.cached + s.sched, s.cached);
    if (w.phase.Shadow? || w.phase.decode) && i < |w.sys.running| {
      assert PureDecode(c, w.sys);
      assert Planned(w.sys.running[i]);
    }
  }
}
