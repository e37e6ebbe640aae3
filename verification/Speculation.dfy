/** The speculative transaction: how many tokens to propose, the lease for their
    blocks, the burst commit and the abort. */
module Speculation {
  import opened Arith
  import opened Types
  import opened Pools
  import opened Allocator
  import opened Scheduling
  import opened States
  import opened Commit
  import opened Leases

  // ----- the proposal length -----

  function CatchUp(rows: seq<Row>): int {
    if rows == [] then 0 else rows[0].cached - rows[0].draft + CatchUp(rows[1..])
  }

  function CompletionCap(rows: seq<Row>): int
    requires rows != []
  {
    var k := Max(rows[0].Remaining() - 1, 0);
    if |rows| == 1 then k else Min(k, CompletionCap(rows[1..]))
  }

  function PositionCap(c: Config, rows: seq<Row>): int
    requires rows != []
  {
    var k := Max(c.maxModelLen - |rows[0].toks|, 0);
    if |rows| == 1 then k else Min(k, PositionCap(c, rows[1..]))
  }

  /** The aggregate budget of a verified cycle: catch-up, proposals, verification. */
  function AggregateCap(budget: nat, batch: nat, catchUp: int): int {
    if batch == 0 then 0 else Max((budget - catchUp - batch) / (2 * batch), 0)
  }

  function EffectiveK(c: Config, rows: seq<Row>, routeCap: nat): int {
    if rows == [] then 0
    else
      Min(c.configuredK,
      Min(CompletionCap(rows),
      Min(PositionCap(c, rows),
      Min(Max(c.budget / |rows| - 1, 0),
      Min(AggregateCap(c.budget, |rows|, CatchUp(rows)), routeCap)))))
  }

  /** The token cap of the compute-then-discard cycle, which verifies nothing. */
  function DiscardK(c: Config, rows: seq<Row>, routeCap: nat): int {
    if rows == [] then 0
    else
      Min(c.configuredK,
      Min(CompletionCap(rows),
      Min(PositionCap(c, rows),
      Min(Max((c.budget - CatchUp(rows)) / |rows| - 1, 0), routeCap))))
  }

  /** What a proposal length must respect, row by row and in total. */
  ghost predicate LengthAllowed(c: Config, rows: seq<Row>, routeCap: nat, k: int) {
    && k <= c.configuredK && k <= routeCap
    && (forall i :: 0 <= i < |rows| ==> k + 1 <= rows[i].Remaining() && |rows[i].toks| + k <= c.maxModelLen)
  }

  lemma {:induction false} CapsAre(c: Config, rows: seq<Row>, k: int)
    requires rows != [] && k >= 1
    ensures (k <= CompletionCap(rows) && k <= PositionCap(c, rows)) <==>
            (forall i :: 0 <= i < |rows| ==> k + 1 <= rows[i].Remaining() && |rows[i].toks| + k <= c.maxModelLen)
    decreases |rows|
  {
    if |rows| > 1 {
      CapsAre(c, rows[1..], k);
      assert forall i :: 0 <= i < |rows| - 1 ==> rows[1..][i] == rows[i + 1];
      forall i | 1 <= i < |rows| ensures rows[i] == rows[1..][i - 1] {}
    }
  }

  /** The derived proposal length is the largest one all limits allow: catch-up plus
      two passes of k positions and one ordinary position per row fit the budget. */
  lemma EffectiveKIsLargest(c: Config, rows: seq<Row>, routeCap: nat, k: int)
    requires rows != [] && k >= 1 && CatchUp(rows) >= 0
    ensures k <= EffectiveK(c, rows, routeCap) <==>
      LengthAllowed(c, rows, routeCap, k) && CatchUp(rows) + |rows| + 2 * (|rows| * k) <= c.budget
  {
    CapsAre(c, rows, k);
    var b := |rows|;
    AggregateIs(c.budget, b, CatchUp(rows), k);
    VerifierIs(c.budget, b, k);
    assert b * k >= 0 by { MulMono(0, b, k); }
    hide CompletionCap, PositionCap, AggregateCap, CatchUp;
  }

  lemma AggregateIs(budget: nat, b: nat, catchUp: int, k: int)
    requires b >= 1 && k >= 1
    ensures k <= AggregateCap(budget, b, catchUp) <==> catchUp + b + 2 * (b * k) <= budget
  {
    QuotientBound(budget - catchUp - b, 2 * b, k);
    assert k * (2 * b) == 2 * (b * k);
  }

  lemma VerifierIs(budget: nat, b: nat, k: int)
    requires b >= 1 && k >= 1
    ensures k <= Max(budget / b - 1, 0) <==> b * k + b <= budget
  {
    QuotientBound(budget, b, k + 1);
    assert (k + 1) * b == b * k + b;
  }

  lemma DiscardKIsLargest(c: Config, rows: seq<Row>, routeCap: nat, k: int)
    requires rows != [] && k >= 1
    ensures k <= DiscardK(c, rows, routeCap) <==>
      LengthAllowed(c, rows, routeCap, k) && CatchUp(rows) + |rows| * (k + 1) <= c.budget
  {
    CapsAre(c, rows, k);
    QuotientBound(c.budget - CatchUp(rows), |rows|, k + 1);
  }

  lemma QuotientBound(n: int, d: int, k: int)
    requires d >= 1
    ensures k <= n / d <==> k * d <= n
  {
    DivBounds(n, d);
    if k <= n / d { MulMono(k, n / d, d); } else { MulMono(n / d + 1, k, d); }
  }

  // ----- planning -----

  /** The highest target position each row may write: its k + 1 verified positions
      start at its last committed token. */
  function HighPositions(rows: seq<Row>, k: nat): (highs: seq<nat>)
    ensures |highs| == |rows|
  {
    seq(|rows|, i requires 0 <= i < |rows| => if |rows[i].toks| + k >= 1 then |rows[i].toks| + k - 1 else 0)
  }

  datatype PlanOutcome =
    | Bypass                                           // ordinary decode goes ahead
    | Speculate(k: nat, pool: Pool, rows: seq<Row>, lease: Lease)
    | PlanFailed(error: LeaseError)

  /** `certified` stands for the route and workspace registries accepting k. */
  ghost function PlanSpeculative(c: Config, y: Sys, routeCap: nat, certified: bool): PlanOutcome
    requires c.Valid()
  {
    if y.running == [] || !AllPlanned(y.running) then Bypass
    else
      var k := EffectiveK(c, y.running, routeCap);
      if k <= 0 || !certified then Bypass
      else
        match Reserve(c, y.pool, y.running, HighPositions(y.running, k))
        case NoCapacity => Bypass
        case ReserveFailed(e) => PlanFailed(e)
        case Reserved(pool, rows, lease) => Speculate(k, pool, rows, lease)
  }

  lemma NeededIs(c: Config, s: Row, k: nat)
    requires c.Valid() && |s.toks| >= 1 && |s.table| == CeilDiv(|s.toks|, c.blockSize)
    ensures Needed(c, s, |s.toks| + k - 1) == CeilDiv(|s.toks| + k, c.blockSize) - CeilDiv(|s.toks|, c.blockSize)
  {
    HighestPosition(|s.toks| + k - 1, c.blockSize);
    CeilMono(|s.toks|, |s.toks| + k, c.blockSize);
  }

  // ----- the burst -----

  datatype SpecRow = SpecRow(proposed: seq<Token>, committed: seq<Token>, accepted: nat)

  /** A verification result the commit accepts: the accepted prefix of the proposals
      followed by one correction or bonus token. */
  predicate ValidResult(c: Config, k: nat, r: SpecRow) {
    && r.accepted <= k && |r.proposed| == k && |r.committed| == r.accepted + 1
    && r.committed[..r.accepted] == r.proposed[..r.accepted]
    && (forall i :: 0 <= i < |r.proposed| ==> InVocabulary(c, r.proposed[i]))
    && (forall i :: 0 <= i < |r.committed| ==> InVocabulary(c, r.committed[i]))
  }

  /** The tokens of a burst that are committed: it ends with the completion limit or
      the end-of-sequence token. */
  function Cut(c: Config, s: Row, burst: seq<Token>): seq<Token>
    decreases |burst|
  {
    if burst == [] || s.Completions() >= s.maxTokens then []
    else if !s.ignoreEos && burst[0] == c.eos then [burst[0]]
    else [burst[0]] + Cut(c, s.(toks := s.toks + [burst[0]]), burst[1..])
  }

  /** Coverage of the row after committing a cut burst. */
  function CachedAfter(s: Row, ts: seq<Token>): int { |s.toks| + |ts| - 1 }

  function DraftAfter(s: Row, ts: seq<Token>, k: nat): nat {
    Max(Min(CachedAfter(s, ts), |s.toks| + k - 1), 0)
  }

  function BurstEvents(id: nat, ts: seq<Token>, finished: bool): seq<Event> {
    seq(|ts|, i requires 0 <= i < |ts| => Event(id, ts[i], finished && i == |ts| - 1))
  }

  /** Commit one row's burst: append, publish the full blocks, advance both
      coverages, and retire the row if its last token finished it. */
  function BurstRow(c: Config, p: Pool, s: Row, ts: seq<Token>, k: nat): Posted
    requires c.Valid() && ts != []
  {
    var cached := CachedAfter(s, ts);
    var grown := s.(toks := s.toks + ts, sched := if cached >= s.cached then cached - s.cached else 0);
    var p' := HashBlocks(c, p, grown);
    var s' := grown.(cached := if cached >= 0 then cached else 0, draft := DraftAfter(s, ts, k), sched := 0);
    if Stops(c, s') then Posted(Release(p', s'.table), Retired(s'), BurstEvents(s.id, ts, true))
    else Posted(p', s', BurstEvents(s.id, ts, false))
  }

  function BurstRows(c: Config, p: Pool, rows: seq<Row>, cuts: seq<seq<Token>>, k: nat): PostedAll
    requires c.Valid()
    decreases |rows|
  {
    if rows == [] || cuts == [] || cuts[0] == [] then PostedAll(p, rows, [])
    else
      var r := BurstRow(c, p, rows[0], cuts[0], k);
      var rest := BurstRows(c, r.pool, rows[1..], cuts[1..], k);
      PostedAll(rest.pool, [r.row] + rest.rows, r.events + rest.events)
  }

  function Cuts(c: Config, rows: seq<Row>, results: seq<SpecRow>): (cuts: seq<seq<Token>>)
    requires |rows| == |results|
    ensures |cuts| == |rows|
  {
    seq(|rows|, i requires 0 <= i < |rows| => Cut(c, rows[i], results[i].committed))
  }

  /** Blocks of the lease each row keeps: what its new coverage needs. */
  function KeepCounts(c: Config, rows: seq<Row>, leased: seq<LeaseRow>, cuts: seq<seq<Token>>): (keep: seq<int>)
    requires c.Valid() && |rows| == |leased| == |cuts|
    ensures |keep| == |rows|
  {
    seq(|rows|, i requires 0 <= i < |rows| =>
      if CachedAfter(rows[i], cuts[i]) >= 0 then
        CeilDiv(CachedAfter(rows[i], cuts[i]), c.blockSize) - |leased[i].before|
      else -1)
  }

  datatype CommitError = ResultInvalid | NoHeadroom | LeaseRefused(error: LeaseError)

  datatype CommitResult = CommitOk(sys: Sys, events: seq<Event>) | CommitFailed(error: CommitError)

  /** Commit a verified burst: trim the lease, then commit every row. The waiting
      queue is not touched. */
  ghost function CommitSpeculative(c: Config, y: Sys, lease: Lease, k: nat, results: seq<SpecRow>): CommitResult
    requires c.Valid()
  {
    if |results| != |y.running| || |lease.rows| != |y.running|
       || (exists i :: 0 <= i < |results| && !ValidResult(c, k, results[i])) then CommitFailed(ResultInvalid)
    else
      var cuts := Cuts(c, y.running, results);
      if exists i :: 0 <= i < |cuts| && cuts[i] == [] then CommitFailed(NoHeadroom)
      else
        match Finalize(y.pool, y.running, lease, KeepCounts(c, y.running, lease.rows, cuts))
        case Refused(e) => CommitFailed(LeaseRefused(e))
        case Settled(pool, rows) =>
          var out := BurstRows(c, pool, rows, cuts, k);
          CommitOk(Sys(out.pool, y.waiting, Surviving(out.rows), y.mid), out.events)
  }
}
