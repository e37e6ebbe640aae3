/** The states the engine passes through, and the moves between them that every
    proof about scheduling reuses. */
module States {
  import opened Arith
  import opened Types
  import opened Pools
  import opened Queues
  import opened Evolution
  import opened Scheduling

  /** A waiting request that owns nothing. */
  predicate Quiet(s: Row) {
    && s.status == Waiting && s.prefill && s.table == []
    && s.cached == 0 && s.draft == 0 && s.sched == 0
  }

  /** The partially prefilled request, possibly with its next chunk scheduled. */
  predicate Partial(s: Row) {
    && s.status == Waiting && s.prefill && s.draft == 0
    && 0 < s.cached + s.sched < |s.toks|
  }

  /** A running row between steps: everything but its last token is cached. */
  predicate Decoding(s: Row) {
    s.status == Running && s.sched == 0 && s.cached + 1 == |s.toks|
  }

  /** A running row whose next position is scheduled for decoding. */
  predicate Planned(s: Row) {
    s.status == Running && !s.prefill && s.sched == 1 && s.cached + 1 == |s.toks|
  }

  /** A running row that will be complete after the forward pass. */
  predicate Complete(s: Row) {
    s.status == Running && s.sched >= 1 && s.cached + s.sched == |s.toks|
  }

  predicate AllQuiet(q: seq<Row>) { forall i :: 0 <= i < |q| ==> Quiet(q[i]) }
  predicate AllDecoding(q: seq<Row>) { forall i :: 0 <= i < |q| ==> Decoding(q[i]) }
  predicate AllPlanned(q: seq<Row>) { forall i :: 0 <= i < |q| ==> Planned(q[i]) }
  predicate AllComplete(q: seq<Row>) { forall i :: 0 <= i < |q| ==> Complete(q[i]) }

  /** At most one partial request; it is the waiting head and the only waiting
      owner of blocks. */
  predicate WaitShape(y: Sys) {
    match y.mid
    case None => AllQuiet(y.waiting)
    case Some(id) =>
      && y.waiting != [] && y.waiting[0].id == id && Partial(y.waiting[0])
      && AllQuiet(y.waiting[1..])
  }

  predicate NoChunk(y: Sys) {
    y.mid.Some? ==> y.waiting != [] && y.waiting[0].sched == 0
  }

  ghost predicate Common(c: Config, y: Sys, extra: seq<Row>)
    requires c.Valid()
  {
    && Held(c, y.pool, y.waiting + y.running + extra)
    && WaitShape(y)
    && |y.waiting| + |y.running| + |extra| <= c.maxSeqs
  }

  /** Between steps. */
  ghost predicate Idle(c: Config, y: Sys)
    requires c.Valid()
  {
    Common(c, y, []) && NoChunk(y) && AllDecoding(y.running)
  }

  function SchedTokens(q: seq<Row>): nat {
    if q == [] then 0 else q[0].sched + SchedTokens(q[1..])
  }

  lemma {:induction false} SchedTokensAppend(q: seq<Row>, s: Row)
    ensures SchedTokens(q + [s]) == SchedTokens(q) + s.sched
  {
    if q == [] {
      assert q + [s] == [s];
    } else {
      assert (q + [s])[1..] == q[1..] + [s];
      SchedTokensAppend(q[1..], s);
    }
  }

  /** The chunk scheduled for the waiting head, if any. */
  function ChunkIds(y: Sys): seq<nat> {
    if y.waiting != [] && y.waiting[0].sched > 0 then [y.waiting[0].id] else []
  }

  function ChunkTokens(y: Sys): nat {
    if y.waiting != [] then y.waiting[0].sched else 0
  }

  /** A step is scheduled: all running rows and at most the partial head, within
      the token budget. */
  ghost predicate Ready(c: Config, y: Sys, ids: seq<nat>)
    requires c.Valid()
  {
    && Common(c, y, []) && AllComplete(y.running)
    && ids == Ids(y.running) + ChunkIds(y) && ids != []
    && SchedTokens(y.running) + ChunkTokens(y) <= c.budget
  }

  function Rows(y: Sys): seq<Row> { y.waiting + y.running }

  // Moving one row s between the queues w (waiting), r (running) and e (in hand).

  lemma PermSelf(a: seq<Row>)
    ensures Perm(a, a)
  {
  }

  lemma PushWaiting(w: seq<Row>, r: seq<Row>, e: seq<Row>, s: Row)
    ensures Perm([s] + (w + r + e), w + [s] + r + e) && Perm(w + [s] + r + e, [s] + (w + r + e))
  {
  }

  lemma PushRunning(w: seq<Row>, r: seq<Row>, e: seq<Row>, s: Row)
    ensures Perm([s] + (w + r + e), w + (r + [s]) + e) && Perm(w + (r + [s]) + e, [s] + (w + r + e))
  {
  }

  lemma PushExtra(w: seq<Row>, r: seq<Row>, e: seq<Row>, s: Row)
    ensures Perm([s] + (w + r + e), w + r + (e + [s])) && Perm(w + r + (e + [s]), [s] + (w + r + e))
  {
  }

  lemma PullFront(w: seq<Row>, r: seq<Row>, e: seq<Row>, s: Row)
    ensures Perm(w + ([s] + r) + e, [s] + (w + r + e)) && Perm([s] + (w + r + e), w + ([s] + r) + e)
  {
  }

  /** One row changes with its blocks, wherever the rows are queued. */
  lemma Replaced(c: Config, p: Pool, p': Pool, s: Row, s': Row, a: seq<Row>, before: seq<Row>, after: seq<Row>)
    requires c.Valid() && Held(c, p, before)
    requires Perm(before, [s] + a) && Perm([s'] + a, after)
    requires Wf(p') && Owned(p', Owners(a) + multiset(s'.table)) && Keeps(p, p', Owners(a))
    requires RowOk(c, p', s') && From(c, p, s, s') && Shrinks(p, p')
    ensures Held(c, p', after) && Evolves(c, p, before, p', after)
  {
    hide Held, Wf, Owned, Keeps, RowOk, From, Shrinks, Evolves, Perm;
    HeldPerm(c, p, before, [s] + a);
    FromCore(c, p, s, s');
    assert s'.id == Core(s').id == Core(s).id == s.id;
    HeldReplace(c, p, p', s, s', a);
    HeldPerm(c, p', [s'] + a, after);
    EvolvesPerm(c, p, before, [s] + a);
    EvolvesOne(c, p, p', s, s', a);
    EvolvesPerm(c, p', [s'] + a, after);
    EvolvesTrans(c, p, before, p, [s] + a, p', [s'] + a);
    EvolvesTrans(c, p, before, p', [s'] + a, p', after);
  }

  lemma HeldFocus(c: Config, p: Pool, s: Row, a: seq<Row>, before: seq<Row>)
    requires c.Valid() && Held(c, p, before) && Perm(before, [s] + a)
    ensures Wf(p) && Owned(p, Owners(a) + multiset(s.table)) && RowOk(c, p, s)
    ensures |p.blocks| == c.numBlocks
  {
    hide Owned, Wf, RowOk, Perm;
    HeldPerm(c, p, before, [s] + a);
    HeldOwned(c, p, s, a);
  }

  lemma HeldMember(c: Config, p: Pool, q: seq<Row>, s: Row)
    requires c.Valid() && Held(c, p, q) && s in q
    ensures RowOk(c, p, s)
  {
  }

  lemma PreemptedOk(c: Config, p: Pool, p': Pool, s: Row)
    requires c.Valid() && RowOk(c, p, s) && s.sched == 0
    ensures RowOk(c, p', Preempted(s)) && From(c, p, s, Preempted(s)) && Quiet(Preempted(s))
  {
    DivBounds(0, c.blockSize);
    CeilIs(0, c.blockSize, 0);
  }

  /** Preemption returns the blocks and requeues the request as new. */
  lemma PreemptKeeps(c: Config, p: Pool, s: Row, a: seq<Row>, before: seq<Row>, after: seq<Row>)
    requires c.Valid() && Held(c, p, before) && s.sched == 0
    requires Perm(before, [s] + a) && Perm([Preempted(s)] + a, after)
    ensures Held(c, Release(p, s.table), after) && Evolves(c, p, before, Release(p, s.table), after)
    ensures Quiet(Preempted(s))
  {
    hide Held, Wf, Owned, Keeps, RowOk, From, Evolves, Perm;
    HeldFocus(c, p, s, a, before);
    ReleaseKeeps(p, s.table, Owners(a));
    var p' := Release(p, s.table);
    PreemptedOk(c, p, p', s);
    assert Owners(a) + multiset(Preempted(s).table) == Owners(a);
    Replaced(c, p, p', s, Preempted(s), a, before, after);
  }
}
