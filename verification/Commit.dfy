/** The ordinary commit after a forward pass: publish full blocks, advance the
    coverage, emit one token per complete row and retire finished requests. */
module Commit {
  import opened Arith
  import opened Types
  import opened Pools
  import opened Allocator
  import opened Queues
  import opened Scheduling
  import opened States
  import opened Progress

  predicate Stops(c: Config, s: Row) {
    || (!s.ignoreEos && |s.toks| > 0 && s.toks[|s.toks| - 1] == c.eos)
    || s.Completions() >= s.maxTokens
  }

  datatype Posted = Posted(pool: Pool, row: Row, events: seq<Event>)

  function Retired(s: Row): Row {
    Cleared(s).(status := Finished)
  }

  /** Append the emitted token to a row whose coverage is complete. */
  function Emit(c: Config, p: Pool, s: Row, token: Token): Posted {
    var s' := s.(toks := s.toks + [token]);
    if Stops(c, s') then Posted(Release(p, s'.table), Retired(s'), [Event(s.id, token, true)])
    else Posted(p, s', [Event(s.id, token, false)])
  }

  function PostRow(c: Config, p: Pool, s: Row, token: Token): Posted
    requires c.Valid()
  {
    var p' := HashBlocks(c, p, s);
    var s' := s.(cached := s.cached + s.sched, sched := 0);
    if s'.cached < |s'.toks| then Posted(p', s', []) else Emit(c, p', s', token)
  }

  datatype PostedAll = PostedAll(pool: Pool, rows: seq<Row>, events: seq<Event>)

  function PostRows(c: Config, p: Pool, rows: seq<Row>, tokens: seq<Token>): PostedAll
    requires c.Valid()
    decreases |rows|
  {
    if rows == [] || tokens == [] then PostedAll(p, rows, [])
    else
      var r := PostRow(c, p, rows[0], tokens[0]);
      var rest := PostRows(c, r.pool, rows[1..], tokens[1..]);
      PostedAll(rest.pool, [r.row] + rest.rows, r.events + rest.events)
  }

  /** The rows that stay in the running queue. */
  function Surviving(q: seq<Row>): seq<Row> {
    if q == [] then []
    else if q[0].status == Finished then Surviving(q[1..])
    else [q[0]] + Surviving(q[1..])
  }

  /** Draft coverage staged before the target pass, by request. */
  type Coverage = map<nat, nat>

  function Covered(q: seq<Row>, staged: Coverage): seq<Row> {
    seq(|q|, i requires 0 <= i < |q| => if q[i].id in staged then q[i].(draft := staged[q[i].id]) else q[i])
  }

  datatype PostError = TokenCount | TokenRange

  datatype PostResult = PostOk(sys: Sys, events: seq<Event>) | PostErr(error: PostError)

  predicate InVocabulary(c: Config, t: Token) {
    t >= 0 && (c.vocab.Some? ==> t < c.vocab.value)
  }

  /** The waiting head when a chunk of it is scheduled, as a list. */
  function ChunkRows(y: Sys): seq<Row> {
    if y.waiting != [] && y.waiting[0].sched > 0 then [y.waiting[0]] else []
  }

  function Postprocess(c: Config, y: Sys, tokens: seq<Token>, staged: Coverage): PostResult
    requires c.Valid()
  {
    var chunk := ChunkRows(y);
    if |tokens| != |y.running| + |chunk| then PostErr(TokenCount)
    else if exists i | 0 <= i < |tokens| :: !InVocabulary(c, tokens[i]) then PostErr(TokenRange)
    else
      var out := PostRows(c, y.pool, y.running + chunk, tokens);
      if |out.rows| != |y.running| + |chunk| then PostErr(TokenCount)
      else
        PostOk(
          Sys(out.pool,
              out.rows[|y.running|..] + y.waiting[|chunk|..],
              Covered(Surviving(out.rows[..|y.running|]), staged),
              y.mid),
          out.events)
  }

  // ----- one row -----

  lemma AdvanceKeeps(c: Config, p: Pool, s: Row, rest: multiset<nat>)
    requires c.Valid() && Wf(p) && Owned(p, rest + multiset(s.table)) && RowOk(c, p, s)
    ensures var q := HashBlocks(c, p, s);
      && Wf(q) && Owned(q, rest + multiset(s.table)) && Keeps(p, q, rest)
      && RowOk(c, q, s.(cached := s.cached + s.sched, sched := 0))
  {
    hide Wf, Owned, Keeps, Contents, HashBlocks, CeilDiv, Fits;
    var s' := s.(cached := s.cached + s.sched, sched := 0);
    HashBlocksKeeps(c, p, s, rest);
    ContentsSame(c, HashBlocks(c, p, s), s.(cached := s.cached + s.sched), s');
    FitsSame(c, s, s');
  }

  /** Publishing and advancing one row keeps the invariant for all. */
  lemma AdvanceHeld(c: Config, p: Pool, s: Row, a: seq<Row>)
    requires c.Valid() && Held(c, p, [s] + a)
    ensures Held(c, HashBlocks(c, p, s), [s.(cached := s.cached + s.sched, sched := 0)] + a)
  {
    hide Wf, Owned, Keeps, RowOk, HashBlocks, Held;
    PermSelf([s] + a);
    HeldFocus(c, p, s, a, [s] + a);
    AdvanceKeeps(c, p, s, Owners(a));
    HeldReplace(c, p, HashBlocks(c, p, s), s, s.(cached := s.cached + s.sched, sched := 0), a);
  }

  lemma EmitHeld(c: Config, p: Pool, s: Row, a: seq<Row>, token: Token)
    requires c.Valid() && Held(c, p, [s] + a) && s.status == Running && s.sched == 0 && s.cached == |s.toks|
    ensures var r := Emit(c, p, s, token);
      && r.row.id == s.id && r.events == [Event(s.id, token, r.row.status == Finished)]
      && (r.row.status == Finished ==> Held(c, r.pool, a) && r.row.table == [])
      && (r.row.status != Finished ==> Held(c, r.pool, [r.row] + a) && Decoding(r.row))
  {
    var s' := s.(toks := s.toks + [token]);
    if Stops(c, s') {
      hide Held;
      HeldDrop(c, p, s, a);
    } else {
      EmitOk(c, p, s, a, token);
    }
  }

  lemma EmitOk(c: Config, p: Pool, s: Row, a: seq<Row>, token: Token)
    requires c.Valid() && Held(c, p, [s] + a) && s.sched == 0 && s.cached == |s.toks|
    requires !Stops(c, s.(toks := s.toks + [token]))
    ensures Held(c, p, [s.(toks := s.toks + [token])] + a)
  {
    hide Wf, Owned, Keeps, Contents, Held;
    var s' := s.(toks := s.toks + [token]);
    PermSelf([s] + a);
    HeldFocus(c, p, s, a, [s] + a);
    ContentsAppend(c, p, s, [token]);
    KeepsSelf(p, Owners(a));
    HeldReplace(c, p, p, s, s', a);
  }

  /** Committing one row: it advances, emits and keeps decoding, or retires and
      gives its blocks back. */
  lemma PostRowKeeps(c: Config, p: Pool, s: Row, a: seq<Row>, token: Token)
    requires c.Valid() && Held(c, p, [s] + a)
    requires Complete(s) || (Partial(s) && s.sched > 0)
    ensures var r := PostRow(c, p, s, token);
      && r.row.id == s.id
      && (Partial(s) ==> r.events == [] && Partial(r.row) && r.row.sched == 0 && Held(c, r.pool, [r.row] + a))
      && (Complete(s) ==>
            && r.events == [Event(s.id, token, r.row.status == Finished)]
            && (r.row.status == Finished ==> Held(c, r.pool, a) && r.row.table == [])
            && (r.row.status != Finished ==> Held(c, r.pool, [r.row] + a) && Decoding(r.row)))
  {
    hide Held, HashBlocks, Emit;
    AdvanceHeld(c, p, s, a);
    var s' := s.(cached := s.cached + s.sched, sched := 0);
    if Complete(s) {
      EmitHeld(c, HashBlocks(c, p, s), s', a, token);
    }
  }

  // ----- the batch -----

  lemma SurvivingCons(r: Row, q: seq<Row>)
    ensures Surviving([r] + q) == if r.status == Finished then Surviving(q) else [r] + Surviving(q)
  {
    assert ([r] + q)[1..] == q;
  }

  lemma SurvivingCount(q: seq<Row>)
    ensures |Surviving(q)| <= |q|
  {
  }

  /** Every complete row commits exactly one event, in batch order. */
  function Emitted(rows: seq<Row>, rows': seq<Row>, tokens: seq<Token>): seq<Event>
    requires |rows| == |rows'| == |tokens|
  {
    seq(|rows|, i requires 0 <= i < |rows| => Event(rows[i].id, tokens[i], rows'[i].status == Finished))
  }

  /** What one committed token means for a row. */
  predicate Committed(c: Config, s: Row, token: Token, s': Row) {
    var grown := s.(toks := s.toks + [token], cached := |s.toks|, sched := 0);
    s' == if Stops(c, grown) then Retired(grown) else grown
  }

  /** A complete row always emits, whatever the pool holds. */
  lemma PostRowShape(c: Config, p: Pool, s: Row, token: Token)
    requires c.Valid() && Complete(s)
    ensures var r := PostRow(c, p, s, token);
      && Committed(c, s, token, r.row)
      && r.row.id == s.id && r.events == [Event(s.id, token, r.row.status == Finished)]
      && (r.row.status != Finished ==> Decoding(r.row))
  {
    hide HashBlocks;
  }

  lemma {:induction false} PostRowsShape(c: Config, p: Pool, rows: seq<Row>, tokens: seq<Token>)
    requires c.Valid() && AllComplete(rows) && |tokens| == |rows|
    ensures var r := PostRows(c, p, rows, tokens);
      && |r.rows| == |rows| && Ids(r.rows) == Ids(rows)
      && r.events == Emitted(rows, r.rows, tokens)
      && AllDecoding(Surviving(r.rows))
      && (forall i :: 0 <= i < |rows| ==> Committed(c, rows[i], tokens[i], r.rows[i]))
    decreases |rows|
  {
    hide PostRow, Complete, Decoding, Emitted, Committed;
    if rows == [] {
      EmittedNone();
    } else {
      var s, q := rows[0], rows[1..];
      assert rows == [s] + q && tokens == [tokens[0]] + tokens[1..];
      assert Complete(s) && AllComplete(q);
      PostRowShape(c, p, s, tokens[0]);
      var r := PostRow(c, p, s, tokens[0]);
      PostRowsShape(c, r.pool, q, tokens[1..]);
      var tail := PostRows(c, r.pool, q, tokens[1..]);
      SurvivingCons(r.row, tail.rows);
      EmittedCons(s, q, r.row, tail.rows, tokens[0], tokens[1..]);
      IdsCons(s, q);
      IdsCons(r.row, tail.rows);
      forall i | 0 <= i < |rows| ensures Committed(c, rows[i], tokens[i], ([r.row] + tail.rows)[i]) {
        if i > 0 { assert Committed(c, q[i - 1], tokens[1..][i - 1], tail.rows[i - 1]); }
      }
    }
  }

  lemma IdsCons(s: Row, q: seq<Row>)
    ensures Ids([s] + q) == [s.id] + Ids(q)
  {
  }

  /** The whole running batch commits: the survivors are all decoding again and the
      allocator invariant holds without the retired rows. */
  lemma {:induction false} PostRowsKeeps(c: Config, p: Pool, rows: seq<Row>, tokens: seq<Token>, others: seq<Row>)
    requires c.Valid() && Held(c, p, rows + others) && AllComplete(rows) && |tokens| == |rows|
    ensures var r := PostRows(c, p, rows, tokens); Held(c, r.pool, Surviving(r.rows) + others)
    decreases |rows|
  {
    hide Held, PostRow, Complete, Decoding, Surviving, Perm;
    if rows == [] {
      assert Surviving(rows) == [] by { SurvivingNone(); }
      assert PostRows(c, p, rows, tokens) == PostedAll(p, rows, []);
    } else {
      var s, q := rows[0], rows[1..];
      assert rows + others == [s] + (q + others);
      assert Complete(s) && AllComplete(q);
      PostRowKeeps(c, p, s, q + others, tokens[0]);
      var r := PostRow(c, p, s, tokens[0]);
      var tail := PostRows(c, r.pool, q, tokens[1..]);
      SurvivingCons(r.row, tail.rows);
      if r.row.status == Finished {
        PostRowsKeeps(c, r.pool, q, tokens[1..], others);
      } else {
        ShiftPerm(r.row, q, others);
        HeldPerm(c, r.pool, [r.row] + (q + others), q + ([r.row] + others));
        PostRowsKeeps(c, r.pool, q, tokens[1..], [r.row] + others);
        ShiftPerm(r.row, Surviving(tail.rows), others);
        HeldPerm(c, tail.pool, Surviving(tail.rows) + ([r.row] + others), [r.row] + Surviving(tail.rows) + others);
      }
    }
  }

  lemma SurvivingNone()
    ensures Surviving([]) == []
  {
  }

  lemma EmittedNone()
    ensures Emitted([], [], []) == []
  {
  }

  lemma EmittedCons(s: Row, q: seq<Row>, s': Row, q': seq<Row>, t: Token, ts: seq<Token>)
    requires |q| == |q'| == |ts|
    ensures Emitted([s] + q, [s'] + q', [t] + ts) == [Event(s.id, t, s'.status == Finished)] + Emitted(q, q', ts)
  {
  }

  lemma ShiftPerm(s: Row, q: seq<Row>, others: seq<Row>)
    ensures Perm([s] + (q + others), q + ([s] + others))
    ensures Perm(q + ([s] + others), [s] + q + others)
  {
  }

  lemma {:induction false} PostRowsConcat(c: Config, p: Pool, a: seq<Row>, b: seq<Row>, ta: seq<Token>, tb: seq<Token>)
    requires c.Valid() && |a| == |ta|
    ensures var ra := PostRows(c, p, a, ta);
      var rb := PostRows(c, ra.pool, b, tb);
      PostRows(c, p, a + b, ta + tb) == PostedAll(rb.pool, ra.rows + rb.rows, ra.events + rb.events)
    decreases |a|
  {
    hide PostRow;
    if a == [] {
      assert a + b == b && ta + tb == tb;
      assert [] + PostRows(c, p, b, tb).rows == PostRows(c, p, b, tb).rows;
    } else {
      assert (a + b)[1..] == a[1..] + b && (ta + tb)[1..] == ta[1..] + tb;
      var r := PostRow(c, p, a[0], ta[0]);
      PostRowsConcat(c, r.pool, a[1..], b, ta[1..], tb);
    }
  }

  /** Staged coverage stays within what the row has cached. */
  ghost predicate CoverageFits(q: seq<Row>, staged: Coverage) {
    forall i :: 0 <= i < |q| && q[i].id in staged ==> staged[q[i].id] <= q[i].cached
  }

  /** The same rows with other draft coverages, within what they have cached. */
  ghost predicate Redrafted(q: seq<Row>, q': seq<Row>) {
    && |q'| == |q|
    && forall i :: 0 <= i < |q| ==> q'[i] == q[i].(draft := q'[i].draft) && q'[i].draft <= q[i].cached
  }

  lemma {:induction false} RedraftedOwners(q: seq<Row>, q': seq<Row>)
    requires Redrafted(q, q')
    ensures Owners(q') == Owners(q)
  {
    if q != [] {
      assert forall i :: 0 <= i < |q| - 1 ==> q[1..][i] == q[i + 1] && q'[1..][i] == q'[i + 1];
      RedraftedOwners(q[1..], q'[1..]);
      assert q'[0] == q[0].(draft := q'[0].draft);
    }
  }

  lemma RedraftHeld(c: Config, p: Pool, q: seq<Row>, q': seq<Row>, others: seq<Row>)
    requires c.Valid() && Held(c, p, q + others) && Redrafted(q, q')
    ensures Held(c, p, q' + others)
  {
    RedraftedOwners(q, q');
    OwnersConcat(q, others);
    OwnersConcat(q', others);
    hide Wf, Owned, AllOk, Distinct, Redrafted;
    RedraftOk(c, p, q, q', others);
  }

  lemma RedraftOk(c: Config, p: Pool, q: seq<Row>, q': seq<Row>, others: seq<Row>)
    requires c.Valid() && AllOk(c, p, q + others) && Distinct(q + others) && Redrafted(q, q')
    ensures AllOk(c, p, q' + others) && Distinct(q' + others)
  {
    var x, x' := q + others, q' + others;
    hide RowOk;
    forall i | 0 <= i < |x| ensures RowOk(c, p, x'[i]) && x'[i].id == x[i].id {
      assert RowOk(c, p, x[i]);
      if i < |q| {
        assert q'[i] == q[i].(draft := q'[i].draft);
        DraftOk(c, p, q[i], q'[i].draft);
      }
    }
    forall i, j | 0 <= i < j < |x'| ensures x'[i].id != x'[j].id {
      assert x[i].id != x[j].id;
    }
  }

  lemma CoveredIsRedrafted(q: seq<Row>, staged: Coverage)
    requires CoverageFits(q, staged) && forall i :: 0 <= i < |q| ==> q[i].draft <= q[i].cached
    ensures Redrafted(q, Covered(q, staged))
  {
  }

  lemma CoveredHeld(c: Config, p: Pool, q: seq<Row>, others: seq<Row>, staged: Coverage)
    requires c.Valid() && Held(c, p, q + others) && CoverageFits(q, staged)
    ensures Held(c, p, Covered(q, staged) + others)
  {
    forall i | 0 <= i < |q| ensures q[i].draft <= q[i].cached {
      HeldMember(c, p, q + others, (q + others)[i]);
    }
    hide Held, CoverageFits;
    CoveredIsRedrafted(q, staged);
    RedraftHeld(c, p, q, Covered(q, staged), others);
  }

  lemma DraftOk(c: Config, p: Pool, s: Row, d: nat)
    requires c.Valid() && RowOk(c, p, s) && d <= s.cached
    ensures RowOk(c, p, s.(draft := d))
  {
    ContentsSame(c, p, s, s.(draft := d));
    FitsSame(c, s, s.(draft := d));
  }

  // ----- the step -----

  /** Coverage may be staged up to the row's committed prefix. */
  predicate StagedFits(q: seq<Row>, staged: Coverage) {
    forall i :: 0 <= i < |q| && q[i].id in staged ==> staged[q[i].id] <= |q[i].toks|
  }

  lemma {:induction false} SurvivingMember(q: seq<Row>, i: nat) returns (k: nat)
    requires i < |Surviving(q)|
    ensures k < |q| && q[k] == Surviving(q)[i] && q[k].status != Finished
  {
    if q[0].status == Finished {
      k := SurvivingMember(q[1..], i);
      k := k + 1;
    } else if i == 0 {
      k := 0;
    } else {
      k := SurvivingMember(q[1..], i - 1);
      k := k + 1;
    }
  }

  lemma StagedCovers(c: Config, rows: seq<Row>, rows': seq<Row>, tokens: seq<Token>, staged: Coverage)
    requires |rows| == |rows'| == |tokens| && StagedFits(rows, staged)
    requires forall i :: 0 <= i < |rows| ==> Committed(c, rows[i], tokens[i], rows'[i])
    ensures CoverageFits(Surviving(rows'), staged)
  {
    forall i | 0 <= i < |Surviving(rows')| && Surviving(rows')[i].id in staged
      ensures staged[Surviving(rows')[i].id] <= Surviving(rows')[i].cached
    {
      var k := SurvivingMember(rows', i);
      assert Committed(c, rows[k], tokens[k], rows'[k]);
    }
  }

  ghost predicate AllInVocabulary(c: Config, tokens: seq<Token>) {
    forall i :: 0 <= i < |tokens| ==> InVocabulary(c, tokens[i])
  }

  /** After the running rows, the scheduled chunk of the waiting head advances. */
  lemma PostChunk(c: Config, p: Pool, y: Sys, run: seq<Row>, tokens: seq<Token>)
    requires c.Valid() && Held(c, p, run + y.waiting) && WaitShape(y) && |tokens| == |ChunkRows(y)|
    ensures var chunk := ChunkRows(y);
      var r := PostRows(c, p, chunk, tokens);
      var w := r.rows + y.waiting[|chunk|..];
      && |r.rows| == |chunk| && r.events == []
      && Held(c, r.pool, run + w) && |w| == |y.waiting|
      && WaitShape(y.(waiting := w)) && NoChunk(y.(waiting := w)) && Ids(w) == Ids(y.waiting)
  {
    hide Held, PostRow, Perm, AllQuiet, Quiet, Partial, Ids;
    if ChunkRows(y) == [] {
      ChunkNone(y);
      assert y.waiting[0..] == y.waiting;
      assert [] + y.waiting == y.waiting;
    } else {
      PostHead(c, p, y, run, tokens[0]);
      var r := PostRow(c, p, y.waiting[0], tokens[0]);
      assert PostRows(c, r.pool, ChunkRows(y)[1..], tokens[1..]) == PostedAll(r.pool, [], []);
      assert PostRows(c, p, ChunkRows(y), tokens) == PostedAll(r.pool, [r.row], []);
    }
  }

  lemma PostHead(c: Config, p: Pool, y: Sys, run: seq<Row>, token: Token)
    requires c.Valid() && Held(c, p, run + y.waiting) && WaitShape(y) && ChunkRows(y) != []
    ensures var r := PostRow(c, p, y.waiting[0], token);
      var w := [r.row] + y.waiting[1..];
      && r.events == [] && Held(c, r.pool, run + w)
      && WaitShape(y.(waiting := w)) && NoChunk(y.(waiting := w)) && Ids(w) == Ids(y.waiting)
  {
    hide Held, PostRow, Perm, AllQuiet, Ids;
    var s, q := y.waiting[0], y.waiting[1..];
    assert y.waiting == [s] + q;
    ShiftPerm(s, run, q);
    PermTrans([s] + (run + q), run + ([s] + q), run + ([s] + q));
    HeldPerm(c, p, run + y.waiting, [s] + (run + q));
    ChunkIsPartial(y);
    PostRowKeeps(c, p, s, run + q, token);
    var r := PostRow(c, p, s, token);
    ShiftPerm(r.row, run, q);
    HeldPerm(c, r.pool, [r.row] + (run + q), run + ([r.row] + q));
    IdsCons(s, q);
    IdsCons(r.row, q);
    assert ([r.row] + q)[1..] == q;
  }

  lemma ChunkNone(y: Sys)
    requires WaitShape(y) && ChunkRows(y) == []
    ensures NoChunk(y)
  {
  }

  lemma ChunkIsPartial(y: Sys)
    requires WaitShape(y) && ChunkRows(y) != []
    ensures y.mid.Some? && Partial(y.waiting[0])
  {
  }

  lemma WaitFirst(w: seq<Row>, r: seq<Row>)
    ensures Perm(w + r, r + w) && Perm(r + w, w + r)
  {
  }

  lemma {:induction false} PostRowsLength(c: Config, p: Pool, rows: seq<Row>, tokens: seq<Token>)
    requires c.Valid()
    ensures |PostRows(c, p, rows, tokens).rows| == |rows|
    decreases |rows|
  {
    hide PostRow;
    if rows != [] && tokens != [] {
      PostRowsLength(c, PostRow(c, p, rows[0], tokens[0]).pool, rows[1..], tokens[1..]);
    }
  }

  /** The commit as two passes: the running rows, then the waiting head's chunk. */
  lemma PostprocessSplits(c: Config, y: Sys, tokens: seq<Token>, staged: Coverage)
    requires c.Valid() && |tokens| == |y.running| + |ChunkRows(y)| && AllInVocabulary(c, tokens)
    ensures var n := |y.running|;
      var chunk := ChunkRows(y);
      var ra := PostRows(c, y.pool, y.running, tokens[..n]);
      var rb := PostRows(c, ra.pool, chunk, tokens[n..]);
      Postprocess(c, y, tokens, staged) ==
        PostOk(Sys(rb.pool, rb.rows + y.waiting[|chunk|..], Covered(Surviving(ra.rows), staged), y.mid),
               ra.events + rb.events)
  {
    hide PostRows, Surviving, Covered, InVocabulary;
    var n := |y.running|;
    var chunk := ChunkRows(y);
    var ta, tb := tokens[..n], tokens[n..];
    assert tokens == ta + tb;
    var ra := PostRows(c, y.pool, y.running, ta);
    var rb := PostRows(c, ra.pool, chunk, tb);
    PostRowsConcat(c, y.pool, y.running, chunk, ta, tb);
    PostRowsLength(c, y.pool, y.running, ta);
    PostRowsLength(c, ra.pool, chunk, tb);
    assert (ra.rows + rb.rows)[..n] == ra.rows && (ra.rows + rb.rows)[n..] == rb.rows;
  }

  lemma RunningFirst(c: Config, y: Sys)
    requires c.Valid() && Held(c, y.pool, Rows(y))
    ensures Held(c, y.pool, y.running + y.waiting)
  {
    hide Held, Perm;
    RowsPlain(y);
    WaitFirst(y.waiting, y.running);
    HeldPerm(c, y.pool, Rows(y), y.running + y.waiting);
  }

  /** The commit of a scheduled step succeeds on any in-vocabulary tokens, returns
      to an idle state, and emits one event per running row in batch order. */
  lemma PostprocessKeeps(c: Config, y: Sys, ids: seq<nat>, tokens: seq<Token>, staged: Coverage)
    requires c.Valid() && Ready(c, y, ids) && |tokens| == |ids| && AllInVocabulary(c, tokens)
    requires StagedFits(y.running, staged)
    ensures var r := Postprocess(c, y, tokens, staged);
      && r.PostOk? && Idle(c, r.sys)
      && var out := PostRows(c, y.pool, y.running, tokens[..|y.running|]);
        && |out.rows| == |y.running|
        && (forall i :: 0 <= i < |y.running| ==> Committed(c, y.running[i], tokens[i], out.rows[i]))
        && r.sys.running == Covered(Surviving(out.rows), staged)
        && r.events == Emitted(y.running, out.rows, tokens[..|y.running|])
        && Ids(r.sys.waiting) == Ids(y.waiting)
  {
    hide Held, PostRows, Postprocess, Perm, AllComplete, Committed, AllDecoding, Emitted, Surviving, Covered, Ready,
      WaitShape, NoChunk, StagedFits, AllInVocabulary, Idle, Ids, ChunkRows, Rows;
    ReadyParts(c, y, ids);
    var n := |y.running|;
    var ta, tb := tokens[..n], tokens[n..];
    PostprocessSplits(c, y, tokens, staged);
    RunningFirst(c, y);
    PostRowsShape(c, y.pool, y.running, ta);
    PostRowsKeeps(c, y.pool, y.running, ta, y.waiting);
    var ra := PostRows(c, y.pool, y.running, ta);
    PostChunk(c, ra.pool, y, Surviving(ra.rows), tb);
    var rb := PostRows(c, ra.pool, ChunkRows(y), tb);
    assert ra.events + [] == ra.events;
    PostIdle(c, y, ra, rb.pool, rb.rows + y.waiting[|ChunkRows(y)|..], ta, staged);
    forall i | 0 <= i < n ensures Committed(c, y.running[i], tokens[i], ra.rows[i]) {
      assert ta[i] == tokens[i];
    }
  }

  lemma ReadyParts(c: Config, y: Sys, ids: seq<nat>)
    requires c.Valid() && Ready(c, y, ids)
    ensures Held(c, y.pool, Rows(y)) && WaitShape(y) && AllComplete(y.running)
    ensures |ids| == |y.running| + |ChunkRows(y)| && |y.waiting| + |y.running| <= c.maxSeqs
  {
    hide Held, WaitShape, AllComplete;
    RowsPlain(y);
  }

  lemma PostIdle(c: Config, y: Sys, ra: PostedAll, pool: Pool, w: seq<Row>, ta: seq<Token>, staged: Coverage)
    requires c.Valid() && Held(c, pool, Surviving(ra.rows) + w) && |w| == |y.waiting|
    requires WaitShape(y.(waiting := w)) && NoChunk(y.(waiting := w))
    requires |y.waiting| + |y.running| <= c.maxSeqs
    requires |ra.rows| == |y.running| == |ta| && AllDecoding(Surviving(ra.rows)) && StagedFits(y.running, staged)
    requires forall i :: 0 <= i < |y.running| ==> Committed(c, y.running[i], ta[i], ra.rows[i])
    ensures Idle(c, Sys(pool, w, Covered(Surviving(ra.rows), staged), y.mid))
  {
    hide Held, Perm, Committed, Decoding, StagedFits, CoverageFits;
    StagedCovers(c, y.running, ra.rows, ta, staged);
    CoveredHeld(c, pool, Surviving(ra.rows), w, staged);
    var run := Covered(Surviving(ra.rows), staged);
    WaitFirst(w, run);
    HeldPerm(c, pool, run + w, w + run);
    RowsPlain(Sys(pool, w, run, y.mid));
    SurvivingCount(ra.rows);
    CoveredDecoding(Surviving(ra.rows), staged);
  }

  lemma CoveredDecoding(q: seq<Row>, staged: Coverage)
    requires AllDecoding(q)
    ensures AllDecoding(Covered(q, staged))
  {
  }
}
