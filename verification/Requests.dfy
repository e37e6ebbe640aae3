/** Admission and cancellation of requests. */
module Requests {
  import opened Arith
  import opened Types
  import opened Pools
  import opened Queues
  import opened Scheduling
  import opened States
  import opened Progress
  import opened Commit
  import opened Truth
  import opened TruthSteps

  datatype AdmitError = EmptyPrompt | TokenInvalid | TooLong | TooManyBlocks | NoSlot

  datatype Admission = Admitted(sys: Sys) | AdmitRefused(error: AdmitError)

  /** A new request as admission creates it. */
  function NewRow(id: nat, prompt: seq<Token>, maxTokens: nat, ignoreEos: bool): Row {
    Row(id, Waiting, prompt, |prompt|, 0, 0, 0, true, [], maxTokens, ignoreEos)
  }

  function Admit(c: Config, y: Sys, id: nat, prompt: seq<Token>, maxTokens: nat, ignoreEos: bool): Admission
    requires c.Valid() && maxTokens >= 1
  {
    if |y.waiting| + |y.running| >= c.maxSeqs then AdmitRefused(NoSlot)
    else if prompt == [] then AdmitRefused(EmptyPrompt)
    else if exists i | 0 <= i < |prompt| :: !InVocabulary(c, prompt[i]) then AdmitRefused(TokenInvalid)
    else if |prompt| + maxTokens - 1 > c.maxModelLen then AdmitRefused(TooLong)
    else if CeilDiv(|prompt| + maxTokens - 1, c.blockSize) > c.numBlocks then AdmitRefused(TooManyBlocks)
    else Admitted(y.(waiting := y.waiting + [NewRow(id, prompt, maxTokens, ignoreEos)]))
  }

  ghost predicate NewId(y: Sys, id: nat) {
    forall s :: s in Rows(y) ==> s.id != id
  }

  /** What a request must satisfy: it has a token, every token is in range, and at its
      longest it fits the model and the whole pool. */
  predicate Admissible(c: Config, prompt: seq<Token>, maxTokens: nat) {
    && |prompt| >= 1
    && (forall i :: 0 <= i < |prompt| ==> 0 <= prompt[i] && (c.vocab.Some? ==> prompt[i] < c.vocab.value))
    && |prompt| + maxTokens <= c.maxModelLen + 1
    && |prompt| + maxTokens <= c.numBlocks * c.blockSize + 1
  }

  /** Admission in both directions: a request is admitted exactly when a slot is free and
      it is admissible, and is then the last of the waiting queue; a refusal names a
      condition that is not met. */
  lemma AdmitExact(c: Config, y: Sys, id: nat, prompt: seq<Token>, maxTokens: nat, ignoreEos: bool)
    requires c.Valid() && maxTokens >= 1
    ensures Admit(c, y, id, prompt, maxTokens, ignoreEos).Admitted? <==>
      |y.waiting| + |y.running| < c.maxSeqs && Admissible(c, prompt, maxTokens)
    ensures Admit(c, y, id, prompt, maxTokens, ignoreEos).Admitted? ==>
      Admit(c, y, id, prompt, maxTokens, ignoreEos).sys == y.(waiting := y.waiting + [NewRow(id, prompt, maxTokens, ignoreEos)])
    ensures Admit(c, y, id, prompt, maxTokens, ignoreEos).AdmitRefused? ==>
      match Admit(c, y, id, prompt, maxTokens, ignoreEos).error
      case NoSlot => |y.waiting| + |y.running| >= c.maxSeqs
      case EmptyPrompt => |prompt| == 0
      case TokenInvalid => exists i :: 0 <= i < |prompt| && (prompt[i] < 0 || (c.vocab.Some? && prompt[i] >= c.vocab.value))
      case TooLong => |prompt| + maxTokens > c.maxModelLen + 1
      case TooManyBlocks => |prompt| + maxTokens > c.numBlocks * c.blockSize + 1
  {
    if |prompt| >= 1 {
      var n := |prompt| + maxTokens - 1;
      CeilAtMost(n, c.blockSize, c.numBlocks);
      hide CeilDiv;
    }
  }

  /** An admitted request joins the queue owning nothing; a refused one changes nothing. */
  lemma AdmitKeeps(c: Config, y: Sys, id: nat, prompt: seq<Token>, maxTokens: nat, ignoreEos: bool)
    requires c.Valid() && maxTokens >= 1 && Idle(c, y) && NewId(y, id)
    ensures Admit(c, y, id, prompt, maxTokens, ignoreEos).Admitted? <==>
      |y.waiting| + |y.running| < c.maxSeqs && Admissible(c, prompt, maxTokens)
    ensures var r := Admit(c, y, id, prompt, maxTokens, ignoreEos);
      r.Admitted? ==>
        && Idle(c, r.sys)
        && forall kv, dkv :: Truthful(c, y.pool, Rows(y), kv, dkv) ==> Truthful(c, r.sys.pool, Rows(r.sys), kv, dkv)
  {
    hide Idle, Truthful, RowOk, Admissible;
    AdmitExact(c, y, id, prompt, maxTokens, ignoreEos);
    var r := Admit(c, y, id, prompt, maxTokens, ignoreEos);
    if r.Admitted? {
      var s := NewRow(id, prompt, maxTokens, ignoreEos);
      NewRowOk(c, y.pool, s, prompt, maxTokens, ignoreEos);
      JoinKeeps(c, y, s);
      forall kv, dkv | Truthful(c, y.pool, Rows(y), kv, dkv) ensures Truthful(c, r.sys.pool, Rows(r.sys), kv, dkv) {
        JoinTruthful(c, y, s, kv, dkv);
      }
    }
  }

  /** A request that owns nothing may join the waiting queue at any time between steps. */
  lemma JoinKeeps(c: Config, y: Sys, s: Row)
    requires c.Valid() && Idle(c, y) && RowOk(c, y.pool, s) && Quiet(s) && NewId(y, s.id) && |y.waiting| + |y.running| < c.maxSeqs
    ensures Idle(c, y.(waiting := y.waiting + [s]))
  {
    hide RowOk, Held, Partial, Decoding, Perm;
    var y' := y.(waiting := y.waiting + [s]);
    RowsPlain(y);
    RowsPlain(y');
    HeldNew(c, y.pool, s, Rows(y));
    PushWaiting(y.waiting, y.running, [], s);
    assert [s] + (y.waiting + y.running + []) == [s] + Rows(y);
    assert y.waiting + [s] + y.running + [] == Rows(y');
    HeldPerm(c, y.pool, [s] + Rows(y), Rows(y'));
    assert y.mid.Some? ==> y'.waiting[1..] == y.waiting[1..] + [s];
  }

  lemma JoinTruthful(c: Config, y: Sys, s: Row, kv: Cache, dkv: Cache)
    requires c.Valid() && Truthful(c, y.pool, Rows(y), kv, dkv) && s.cached == 0 && s.draft == 0
    ensures Truthful(c, y.pool, Rows(y.(waiting := y.waiting + [s])), kv, dkv)
  {
    hide IndexTrue;
    assert RowTrue(c, kv, dkv, s);
    hide RowTrue;
    forall x | x in Rows(y.(waiting := y.waiting + [s])) ensures RowTrue(c, kv, dkv, x) { assert x in Rows(y) || x == s; }
  }

  lemma NewRowOk(c: Config, p: Pool, s: Row, prompt: seq<Token>, maxTokens: nat, ignoreEos: bool)
    requires c.Valid() && maxTokens >= 1 && prompt != []
    requires s.toks == prompt && s.prompt == |prompt| && s.maxTokens == maxTokens
    requires s.table == [] && s.cached == 0 && s.draft == 0 && s.sched == 0
    requires CeilDiv(|prompt| + maxTokens - 1, c.blockSize) <= c.numBlocks
    ensures RowOk(c, p, s)
  {
    DivBounds(0, c.blockSize);
    CeilIs(0, c.blockSize, 0);
  }

  lemma HeldNew(c: Config, p: Pool, s: Row, a: seq<Row>)
    requires c.Valid() && Held(c, p, a) && RowOk(c, p, s) && s.table == [] && forall x :: x in a ==> x.id != s.id
    ensures Held(c, p, [s] + a)
  {
    hide RowOk, Wf;
    OwnersCons(s, a);
    assert Owners(a) + multiset(s.table) == Owners(a);
    ConsOk(c, p, s, a);
    hide Owned;
    forall i, j | 0 <= i < j < |[s] + a| ensures ([s] + a)[i].id != ([s] + a)[j].id {
      assert ([s] + a)[j] == a[j - 1] && a[j - 1] in a;
    }
  }

  // ----- cancellation -----

  datatype Removed = Removed(pool: Pool, kept: seq<Row>, ids: seq<nat>)

  /** Remove the named rows of one queue, releasing each before it leaves. */
  function CancelQueue(p: Pool, q: seq<Row>, targets: set<nat>): Removed
    decreases |q|
  {
    if q == [] then Removed(p, [], [])
    else if q[0].id in targets then
      var r := CancelQueue(Release(p, q[0].table), q[1..], targets);
      Removed(r.pool, r.kept, [q[0].id] + r.ids)
    else
      var r := CancelQueue(p, q[1..], targets);
      Removed(r.pool, [q[0]] + r.kept, r.ids)
  }

  datatype CancelResult = CancelOk(sys: Sys, ids: seq<nat>) | CancelBroken

  function Cancel(y: Sys, targets: set<nat>): CancelResult {
    var w := CancelQueue(y.pool, y.waiting, targets);
    var r := CancelQueue(w.pool, y.running, targets);
    var y' := Sys(r.pool, w.kept, r.kept, if y.mid.Some? && y.mid.value in targets then None else y.mid);
    if MidConsistent(y') then CancelOk(y', w.ids + r.ids) else CancelBroken
  }

  /** The rows that are not named, in order. */
  function Unnamed(q: seq<Row>, targets: set<nat>): seq<Row> {
    if q == [] then []
    else if q[0].id in targets then Unnamed(q[1..], targets)
    else [q[0]] + Unnamed(q[1..], targets)
  }

  function Named(q: seq<Row>, targets: set<nat>): seq<nat> {
    if q == [] then []
    else (if q[0].id in targets then [q[0].id] else []) + Named(q[1..], targets)
  }

  lemma {:induction false} CancelQueueKeeps(c: Config, p: Pool, q: seq<Row>, others: seq<Row>, targets: set<nat>)
    requires c.Valid() && Held(c, p, q + others)
    ensures var r := CancelQueue(p, q, targets);
      && Held(c, r.pool, r.kept + others) && r.pool.index == p.index
      && r.kept == Unnamed(q, targets) && r.ids == Named(q, targets)
    decreases |q|
  {
    hide Held, Perm;
    if q == [] {
      assert q + others == others;
    } else {
      var s, tail := q[0], q[1..];
      assert q + others == [s] + (tail + others);
      if s.id in targets {
        HeldDrop(c, p, s, tail + others);
        CancelQueueKeeps(c, Release(p, s.table), tail, others, targets);
      } else {
        ShiftPerm(s, tail, others);
        HeldPerm(c, p, [s] + (tail + others), tail + ([s] + others));
        CancelQueueKeeps(c, p, tail, [s] + others, targets);
        var r := CancelQueue(p, tail, targets);
        ShiftPerm(s, r.kept, others);
        HeldPerm(c, r.pool, r.kept + ([s] + others), [s] + r.kept + others);
      }
    }
  }

  lemma {:induction false} UnnamedIn(q: seq<Row>, targets: set<nat>)
    ensures forall s :: s in Unnamed(q, targets) <==> s in q && s.id !in targets
    ensures |Unnamed(q, targets)| <= |q|
  {
    if q != [] {
      UnnamedIn(q[1..], targets);
      assert q == [q[0]] + q[1..];
    }
  }

  /** Cancellation removes exactly the named queued requests, in queue order, and returns
      their blocks: between steps, and also after a pass that failed and was not undone. */
  lemma CancelKeeps(c: Config, y: Sys, targets: set<nat>)
    requires c.Valid() && Common(c, y, [])
    ensures var r := Cancel(y, targets);
      && r.CancelOk? && Common(c, r.sys, []) && (Idle(c, y) ==> Idle(c, r.sys))
      && r.sys.waiting == Unnamed(y.waiting, targets) && r.sys.running == Unnamed(y.running, targets)
      && r.ids == Named(y.waiting, targets) + Named(y.running, targets)
      && r.sys.pool.index == y.pool.index
  {
    hide Held, Quiet, Partial, Decoding, Perm;
    RowsPlain(y);
    var w := CancelQueue(y.pool, y.waiting, targets);
    CancelQueueKeeps(c, y.pool, y.waiting, y.running, targets);
    WaitFirst(w.kept, y.running);
    HeldPerm(c, w.pool, w.kept + y.running, y.running + w.kept);
    var r := CancelQueue(w.pool, y.running, targets);
    CancelQueueKeeps(c, w.pool, y.running, w.kept, targets);
    WaitFirst(w.kept, r.kept);
    HeldPerm(c, r.pool, r.kept + w.kept, w.kept + r.kept);
    UnnamedIn(y.waiting, targets);
    UnnamedIn(y.running, targets);
    var y' := Sys(r.pool, w.kept, r.kept, if y.mid.Some? && y.mid.value in targets then None else y.mid);
    RowsPlain(y');
    hide WaitShape, NoChunk, AllDecoding;
    CancelShape(y, y', targets);
    if Idle(c, y) { CancelIdle(y, y', targets); }
    MidChecked(c, y');
  }

  /** The caches stay truthful for the requests that remain. */
  lemma CancelTruthful(c: Config, y: Sys, targets: set<nat>, kv: Cache, dkv: Cache)
    requires c.Valid() && Common(c, y, []) && Truthful(c, y.pool, Rows(y), kv, dkv) && Cancel(y, targets).CancelOk?
    ensures var z := Cancel(y, targets).sys; Truthful(c, z.pool, Rows(z), kv, dkv)
  {
    hide Common, Cancel, IndexTrue, RowTrue, Idle, Named;
    CancelKeeps(c, y, targets);
    var z := Cancel(y, targets).sys;
    SameIndex(c, y.pool, z.pool, kv);
    UnnamedIn(y.waiting, targets);
    UnnamedIn(y.running, targets);
    forall x | x in Rows(z) ensures RowTrue(c, kv, dkv, x) { assert x in Rows(y); }
  }

  lemma CancelShape(y: Sys, y': Sys, targets: set<nat>)
    requires WaitShape(y) && y'.waiting == Unnamed(y.waiting, targets)
    requires y'.mid == if y.mid.Some? && y.mid.value in targets then None else y.mid
    ensures WaitShape(y') && (NoChunk(y) ==> NoChunk(y'))
  {
    hide Quiet, Partial;
    if y.mid.Some? {
      var s, tail := y.waiting[0], y.waiting[1..];
      UnnamedIn(tail, targets);
      UnnamedQuiet(tail, targets);
      if s.id !in targets {
        assert y'.waiting == [s] + Unnamed(tail, targets);
        assert y'.waiting[1..] == Unnamed(tail, targets);
      }
    } else {
      UnnamedQuiet(y.waiting, targets);
    }
  }

  lemma CancelIdle(y: Sys, y': Sys, targets: set<nat>)
    requires AllDecoding(y.running) && y'.running == Unnamed(y.running, targets)
    ensures AllDecoding(y'.running)
  {
    hide Decoding;
    UnnamedIn(y.running, targets);
    forall i | 0 <= i < |y'.running| ensures Decoding(y'.running[i]) {
      assert y'.running[i] in y.running;
    }
  }

  lemma UnnamedQuiet(q: seq<Row>, targets: set<nat>)
    requires AllQuiet(q)
    ensures AllQuiet(Unnamed(q, targets))
  {
    UnnamedIn(q, targets);
    forall i | 0 <= i < |Unnamed(q, targets)| ensures Quiet(Unnamed(q, targets)[i]) {
      assert Unnamed(q, targets)[i] in q;
    }
  }
}
