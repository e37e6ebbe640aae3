/** What the event stream says about the requests: every committed token is reported
    once, in order, and a request ends exactly at its first stopping point. */
module Delivery {
  import opened Arith
  import opened Types
  import opened Allocator
  import opened Queues
  import opened Evolution
  import opened Scheduling
  import opened States
  import opened Commit
  import opened Leases
  import opened Speculation
  import opened Burst
  import opened Transactions

  /** The events of one request, in order. */
  function Mine(id: nat, ev: seq<Event>): seq<Event> {
    if ev == [] then [] else (if ev[0].id == id then [ev[0]] else []) + Mine(id, ev[1..])
  }

  function TokensIn(ev: seq<Event>): seq<Token> {
    seq(|ev|, i requires 0 <= i < |ev| => ev[i].token)
  }

  /** The events of a request that goes on. */
  predicate Open(ev: seq<Event>) {
    forall i :: 0 <= i < |ev| ==> !ev[i].finished
  }

  /** The events of a request that ended: the last one, and only it, says so. */
  predicate Closed(ev: seq<Event>) {
    ev != [] && ev[|ev| - 1].finished && forall i :: 0 <= i < |ev| - 1 ==> !ev[i].finished
  }

  /** The same request, whatever its tokens and scheduling state. */
  predicate Same(s: Row, s': Row) {
    s'.id == s.id && s'.prompt == s.prompt && s'.maxTokens == s.maxTokens && s'.ignoreEos == s.ignoreEos
  }

  /** No stopping condition is met after any of the first n further tokens. */
  ghost predicate RunsThrough(c: Config, s: Row, ts: seq<Token>, n: int) {
    forall k: nat :: 1 <= k <= n && k <= |ts| ==> !Stops(c, s.(toks := s.toks + ts[..k]))
  }

  ghost predicate Continues(c: Config, s: Row, mine: seq<Event>, s': Row) {
    var ts := TokensIn(mine);
    Same(s, s') && s'.toks == s.toks + ts && Open(mine) && RunsThrough(c, s, ts, |ts|)
  }

  ghost predicate Ends(c: Config, s: Row, mine: seq<Event>) {
    var ts := TokensIn(mine);
    Closed(mine) && Stops(c, s.(toks := s.toks + ts)) && RunsThrough(c, s, ts, |ts| - 1)
  }

  ghost predicate Gone(s: Row, q: seq<Row>) {
    forall s' :: s' in q ==> s'.id != s.id
  }

  ghost predicate Goes(c: Config, s: Row, mine: seq<Event>, q': seq<Row>) {
    (exists s' :: s' in q' && Continues(c, s, mine, s')) || (Ends(c, s, mine) && Gone(s, q'))
  }

  /** A complete answer, spelled out: at least one token and no more than the limit, no
      unignored end-of-sequence token before the last, and the last is one unless the
      limit was reached; the last event, and only it, says that the request is over. */
  predicate Answer(c: Config, s: Row, mine: seq<Event>) {
    var n := |mine|;
    && 1 <= n && |s.toks| + n <= s.prompt + s.maxTokens
    && (forall i :: 0 <= i < n ==> mine[i].finished == (i == n - 1))
    && (forall i :: 0 <= i < n - 1 ==> s.ignoreEos || mine[i].token != c.eos)
    && (|s.toks| + n == s.prompt + s.maxTokens || (!s.ignoreEos && mine[n - 1].token == c.eos))
  }

  lemma EndsAnswers(c: Config, s: Row, mine: seq<Event>)
    requires Ends(c, s, mine) && |s.toks| < s.prompt + s.maxTokens
    ensures Answer(c, s, mine)
  {
    var ts, n := TokensIn(mine), |mine|;
    forall i | 0 <= i < n - 1 ensures s.ignoreEos || mine[i].token != c.eos { NotYet(c, s, mine, i); }
    if n > 1 { NotYet(c, s, mine, n - 2); }
    assert (s.toks + ts)[|s.toks| + n - 1] == mine[n - 1].token;
  }

  /** Before its last token the request was not over. */
  lemma NotYet(c: Config, s: Row, mine: seq<Event>, i: nat)
    requires RunsThrough(c, s, TokensIn(mine), |mine| - 1) && i < |mine| - 1
    ensures |s.toks| + i + 1 < s.prompt + s.maxTokens && (s.ignoreEos || mine[i].token != c.eos)
  {
    var ts := TokensIn(mine);
    assert !Stops(c, s.(toks := s.toks + ts[..i + 1]));
    assert (s.toks + ts[..i + 1])[|s.toks| + i] == mine[i].token;
  }

  ghost predicate Known(id: nat, q: seq<Row>) {
    exists s :: s in q && s.id == id
  }

  /** The stream `ev` accounts for everything that happened to the requests of q. */
  ghost predicate Delivers(c: Config, q: seq<Row>, ev: seq<Event>, q': seq<Row>) {
    && (forall s :: s in q ==> Goes(c, s, Mine(s.id, ev), q'))
    && (forall s' :: s' in q' ==> Known(s'.id, q))
    && (forall e :: e in ev ==> Known(e.id, q))
  }

  // ----- composition -----

  lemma MineEmpty(id: nat)
    ensures Mine(id, []) == []
  {
  }

  lemma MineHead(id: nat, ev: seq<Event>)
    requires ev != []
    ensures Mine(id, ev) == (if ev[0].id == id then [ev[0]] else []) + Mine(id, ev[1..])
  {
  }

  lemma {:induction false} MineConcat(id: nat, a: seq<Event>, b: seq<Event>)
    ensures Mine(id, a + b) == Mine(id, a) + Mine(id, b)
  {
    hide Mine;
    if a == [] {
      assert a + b == b;
      MineEmpty(id);
    } else {
      assert (a + b)[1..] == a[1..] + b && (a + b)[0] == a[0];
      MineHead(id, a);
      MineHead(id, a + b);
      MineConcat(id, a[1..], b);
    }
  }

  lemma {:induction false} MineNone(id: nat, ev: seq<Event>)
    requires forall e :: e in ev ==> e.id != id
    ensures Mine(id, ev) == []
  {
    if ev != [] {
      assert ev[0] in ev && forall e :: e in ev[1..] ==> e in ev;
      MineNone(id, ev[1..]);
    }
  }

  lemma {:induction false} MineAll(id: nat, ev: seq<Event>)
    requires forall e :: e in ev ==> e.id == id
    ensures Mine(id, ev) == ev
  {
    if ev != [] {
      assert ev[0] in ev && forall e :: e in ev[1..] ==> e in ev;
      MineAll(id, ev[1..]);
    }
  }

  lemma StopsSame(c: Config, s: Row, s': Row, toks: seq<Token>)
    requires Same(s, s')
    ensures Stops(c, s.(toks := toks)) <==> Stops(c, s'.(toks := toks))
  {
  }

  lemma RunsOn(c: Config, s: Row, a: seq<Token>, s1: Row, b: seq<Token>, n: int)
    requires Same(s, s1) && s1.toks == s.toks + a && RunsThrough(c, s, a, |a|) && RunsThrough(c, s1, b, n)
    ensures RunsThrough(c, s, a + b, |a| + n)
  {
    hide Stops;
    forall k: nat | 1 <= k <= |a| + n && k <= |a + b| ensures !Stops(c, s.(toks := s.toks + (a + b)[..k])) {
      if k <= |a| {
        assert (a + b)[..k] == a[..k];
      } else {
        assert s.toks + (a + b)[..k] == s1.toks + b[..k - |a|];
        StopsSame(c, s, s1, s1.toks + b[..k - |a|]);
      }
    }
  }

  lemma ThenContinues(c: Config, s: Row, a: seq<Event>, s1: Row, b: seq<Event>, s2: Row)
    requires Continues(c, s, a, s1) && Continues(c, s1, b, s2)
    ensures Continues(c, s, a + b, s2)
  {
    hide Stops;
    assert TokensIn(a + b) == TokensIn(a) + TokensIn(b);
    RunsOn(c, s, TokensIn(a), s1, TokensIn(b), |b|);
    assert s2.toks == s.toks + TokensIn(a + b);
  }

  lemma ThenEnds(c: Config, s: Row, a: seq<Event>, s1: Row, b: seq<Event>)
    requires Continues(c, s, a, s1) && Ends(c, s1, b)
    ensures Ends(c, s, a + b)
  {
    hide Stops;
    assert TokensIn(a + b) == TokensIn(a) + TokensIn(b);
    RunsOn(c, s, TokensIn(a), s1, TokensIn(b), |b| - 1);
    assert s1.toks + TokensIn(b) == s.toks + TokensIn(a + b);
    StopsSame(c, s, s1, s1.toks + TokensIn(b));
  }

  lemma GoesThen(c: Config, s: Row, q1: seq<Row>, ev1: seq<Event>, ev2: seq<Event>, q2: seq<Row>)
    requires Goes(c, s, Mine(s.id, ev1), q1) && Delivers(c, q1, ev2, q2)
    ensures Goes(c, s, Mine(s.id, ev1 + ev2), q2)
  {
    hide Mine, Continues, Ends;
    MineConcat(s.id, ev1, ev2);
    var a, b := Mine(s.id, ev1), Mine(s.id, ev2);
    if s1 :| s1 in q1 && Continues(c, s, a, s1) {
      assert s1.id == s.id by { ContinuesSame(c, s, a, s1); }
      assert Goes(c, s1, b, q2);
      if s2 :| s2 in q2 && Continues(c, s1, b, s2) {
        ThenContinues(c, s, a, s1, b, s2);
      } else {
        ThenEnds(c, s, a, s1, b);
        assert Gone(s1, q2);
      }
    } else {
      assert Gone(s, q1);
      forall e | e in ev2 ensures e.id != s.id { assert Known(e.id, q1); }
      MineNone(s.id, ev2);
      assert a + [] == a;
      forall s' | s' in q2 ensures s'.id != s.id { assert Known(s'.id, q1); }
    }
  }

  lemma ContinuesSame(c: Config, s: Row, a: seq<Event>, s1: Row)
    requires Continues(c, s, a, s1)
    ensures s1.id == s.id
  {
  }

  /** Steps in sequence deliver the concatenation of their streams. */
  lemma DeliversThen(c: Config, q: seq<Row>, ev1: seq<Event>, q1: seq<Row>, ev2: seq<Event>, q2: seq<Row>)
    requires Delivers(c, q, ev1, q1) && Delivers(c, q1, ev2, q2)
    ensures Delivers(c, q, ev1 + ev2, q2)
  {
    forall s | s in q ensures Goes(c, s, Mine(s.id, ev1 + ev2), q2) {
      GoesThen(c, s, q1, ev1, ev2, q2);
    }
    hide Goes, Mine;
    forall s2 | s2 in q2 ensures Known(s2.id, q) {
      var s1 :| s1 in q1 && s1.id == s2.id;
      assert Known(s1.id, q);
    }
    forall e | e in ev1 + ev2 ensures Known(e.id, q) {
      if e in ev2 {
        var s1 :| s1 in q1 && s1.id == e.id;
        assert Known(s1.id, q);
      }
    }
  }

  // ----- silent steps -----

  /** Both lists hold the same requests with the same tokens. */
  ghost predicate Alike(q: seq<Row>, q': seq<Row>) {
    && (forall s :: s in q ==> exists s' :: s' in q' && Same(s, s') && s'.toks == s.toks)
    && (forall s' :: s' in q' ==> Known(s'.id, q))
  }

  lemma AlikeDelivers(c: Config, q: seq<Row>, q': seq<Row>)
    requires Alike(q, q')
    ensures Delivers(c, q, [], q')
  {
    forall s | s in q ensures Goes(c, s, Mine(s.id, []), q') {
      var s' :| s' in q' && Same(s, s') && s'.toks == s.toks;
      assert TokensIn([]) == [];
      assert s.toks + [] == s.toks;
      assert Continues(c, s, [], s');
    }
  }

  /** Requests may be reordered and rescheduled around a delivery. */
  lemma AlikeAround(c: Config, q0: seq<Row>, q: seq<Row>, ev: seq<Event>, q': seq<Row>, q1: seq<Row>)
    requires Alike(q0, q) && Delivers(c, q, ev, q') && Alike(q', q1)
    ensures Delivers(c, q0, ev, q1)
  {
    hide Delivers, Alike;
    AlikeDelivers(c, q0, q);
    DeliversThen(c, q0, [], q, ev, q');
    AlikeDelivers(c, q', q1);
    DeliversThen(c, q0, [] + ev, q', [], q1);
    assert [] + ev + [] == ev;
  }

  lemma AlikeTrans(q0: seq<Row>, q: seq<Row>, q1: seq<Row>)
    requires Alike(q0, q) && Alike(q, q1)
    ensures Alike(q0, q1)
  {
    forall s | s in q0 ensures exists s' :: s' in q1 && Same(s, s') && s'.toks == s.toks {
      var t :| t in q && Same(s, t) && t.toks == s.toks;
      var u :| u in q1 && Same(t, u) && u.toks == t.toks;
    }
    forall s' | s' in q1 ensures Known(s'.id, q0) {
      var t :| t in q && t.id == s'.id;
      assert Known(t.id, q0);
    }
  }

  lemma {:induction false} CoresMember(q: seq<Row>, k: Row)
    ensures k in Cores(q) <==> exists i :: 0 <= i < |q| && Core(q[i]) == k
  {
    if q != [] {
      CoresMember(q[1..], k);
      if i :| 0 <= i < |q[1..]| && Core(q[1..][i]) == k { assert Core(q[i + 1]) == k; }
      if i :| 0 <= i < |q| && Core(q[i]) == k && i > 0 { assert Core(q[1..][i - 1]) == k; }
    }
  }

  lemma CoreOf(q: seq<Row>, q': seq<Row>, s: Row) returns (s': Row)
    requires Cores(q) == Cores(q') && s in q
    ensures s' in q' && Same(s, s') && s'.toks == s.toks
  {
    CoresMember(q, Core(s));
    CoresMember(q', Core(s));
    var i :| 0 <= i < |q'| && Core(q'[i]) == Core(s);
    s' := q'[i];
    assert Core(s').toks == s'.toks && Core(s').id == s'.id && Core(s').prompt == s'.prompt
      && Core(s').maxTokens == s'.maxTokens && Core(s').ignoreEos == s'.ignoreEos;
  }

  /** Scheduling keeps every request, so it delivers nothing. */
  lemma CoresAlike(q: seq<Row>, q': seq<Row>)
    requires Cores(q) == Cores(q')
    ensures Alike(q, q')
  {
    forall s | s in q ensures exists s' :: s' in q' && Same(s, s') && s'.toks == s.toks {
      var s' := CoreOf(q, q', s);
    }
    forall s' | s' in q' ensures Known(s'.id, q) {
      var s := CoreOf(q', q, s');
    }
  }

  // ----- a committed batch -----

  /** One row commits the tokens ts. */
  ghost predicate RowCommits(c: Config, s: Row, ts: seq<Token>, s': Row) {
    && ts != [] && s'.id == s.id && s'.prompt == s.prompt && s'.maxTokens == s.maxTokens && s'.ignoreEos == s.ignoreEos
    && s'.toks == s.toks + ts
    && RunsThrough(c, s, ts, |ts| - 1)
    && (s'.status == Finished <==> Stops(c, s.(toks := s.toks + ts)))
  }

  lemma RowGoes(c: Config, s: Row, ts: seq<Token>, s': Row)
    requires RowCommits(c, s, ts, s')
    ensures var mine := BurstEvents(s.id, ts, s'.status == Finished);
      if s'.status == Finished then Ends(c, s, mine) else Continues(c, s, mine, s')
  {
    hide Stops;
    var mine := BurstEvents(s.id, ts, s'.status == Finished);
    assert TokensIn(mine) == ts;
    assert ts[..|ts|] == ts;
  }

  lemma {:induction false} StreamMine(rows: seq<Row>, cuts: seq<seq<Token>>, rows': seq<Row>, i: nat)
    requires |rows| == |cuts| == |rows'| && Distinct(rows) && i < |rows|
    ensures Mine(rows[i].id, BurstStream(rows, cuts, rows')) == BurstEvents(rows[i].id, cuts[i], rows'[i].status == Finished)
  {
    var id := rows[i].id;
    var first := BurstEvents(rows[0].id, cuts[0], rows'[0].status == Finished);
    var tail := BurstStream(rows[1..], cuts[1..], rows'[1..]);
    MineConcat(id, first, tail);
    assert forall j :: 0 <= j < |rows| - 1 ==> rows[1..][j] == rows[j + 1];
    if i == 0 {
      MineAll(id, first);
      StreamIds(rows[1..], cuts[1..], rows'[1..]);
      forall e | e in tail ensures e.id != id {
        var s :| s in rows[1..] && s.id == e.id;
        var j :| 0 <= j < |rows[1..]| && rows[1..][j] == s;
        assert rows[0].id != rows[j + 1].id;
      }
      MineNone(id, tail);
      assert first + [] == first;
    } else {
      assert rows[0].id != rows[i].id;
      MineNone(id, first);
      StreamMine(rows[1..], cuts[1..], rows'[1..], i - 1);
    }
  }

  lemma {:induction false} StreamIds(rows: seq<Row>, cuts: seq<seq<Token>>, rows': seq<Row>)
    requires |rows| == |cuts| == |rows'|
    ensures forall e :: e in BurstStream(rows, cuts, rows') ==> Known(e.id, rows)
  {
    if rows != [] {
      StreamIds(rows[1..], cuts[1..], rows'[1..]);
      forall e | e in BurstStream(rows, cuts, rows') ensures Known(e.id, rows) {
        if e in BurstStream(rows[1..], cuts[1..], rows'[1..]) {
          var s :| s in rows[1..] && s.id == e.id;
          assert s in rows;
        } else {
          assert rows[0] in rows && e.id == rows[0].id;
        }
      }
    }
  }

  lemma {:induction false} SurvivingIn(q: seq<Row>)
    ensures forall s :: s in Surviving(q) <==> s in q && s.status != Finished
  {
    if q != [] {
      SurvivingIn(q[1..]);
      assert q == [q[0]] + q[1..];
    }
  }

  lemma BatchGoes(c: Config, rows: seq<Row>, cuts: seq<seq<Token>>, rows': seq<Row>, others: seq<Row>, i: nat)
    requires |rows| == |cuts| == |rows'| && Distinct(rows + others) && i < |rows + others|
    requires forall j :: 0 <= j < |rows| ==> RowCommits(c, rows[j], cuts[j], rows'[j])
    ensures var s := (rows + others)[i];
      Goes(c, s, Mine(s.id, BurstStream(rows, cuts, rows')), Surviving(rows') + others)
  {
    hide Mine, Continues, Ends, RowCommits;
    var q' := Surviving(rows') + others;
    if i < |rows| {
      DistinctPart(rows, others);
      StreamMine(rows, cuts, rows', i);
      RowGoes(c, rows[i], cuts[i], rows'[i]);
      if rows'[i].status == Finished {
        RetiredGone(c, rows, cuts, rows', others, i);
      } else {
        SurvivingIn(rows');
        assert rows'[i] in q';
      }
    } else {
      var s := others[i - |rows|];
      OthersSilent(rows, cuts, rows', others, i - |rows|);
      SilentContinues(c, s);
      assert s in q';
    }
  }

  /** A batch whose rows commit delivers their tokens, and nothing to the others. */
  lemma BatchDelivers(c: Config, rows: seq<Row>, cuts: seq<seq<Token>>, rows': seq<Row>, others: seq<Row>)
    requires |rows| == |cuts| == |rows'| && Distinct(rows + others)
    requires forall i :: 0 <= i < |rows| ==> RowCommits(c, rows[i], cuts[i], rows'[i])
    ensures Delivers(c, rows + others, BurstStream(rows, cuts, rows'), Surviving(rows') + others)
  {
    var q := rows + others;
    var q' := Surviving(rows') + others;
    var ev := BurstStream(rows, cuts, rows');
    StreamIds(rows, cuts, rows');
    SurvivingIn(rows');
    hide Mine, Goes, RowCommits, BurstStream, Surviving;
    forall s | s in q ensures Goes(c, s, Mine(s.id, ev), q') {
      var i :| 0 <= i < |q| && q[i] == s;
      BatchGoes(c, rows, cuts, rows', others, i);
    }
    forall s' | s' in q' ensures Known(s'.id, q) {
      if s' in Surviving(rows') {
        var i :| 0 <= i < |rows'| && rows'[i] == s';
        CommitsSame(c, rows[i], cuts[i], rows'[i]);
        assert rows[i] in q;
      }
    }
    forall e | e in ev ensures Known(e.id, q) {
      var s :| s in rows && s.id == e.id;
      assert s in q;
    }
  }

  lemma CommitsSame(c: Config, s: Row, ts: seq<Token>, s': Row)
    requires RowCommits(c, s, ts, s')
    ensures s'.id == s.id
  {
  }

  lemma SilentContinues(c: Config, s: Row)
    ensures Continues(c, s, [], s)
  {
    assert TokensIn([]) == [];
    assert s.toks + [] == s.toks;
  }

  lemma OthersSilent(rows: seq<Row>, cuts: seq<seq<Token>>, rows': seq<Row>, others: seq<Row>, j: nat)
    requires |rows| == |cuts| == |rows'| && Distinct(rows + others) && j < |others|
    ensures Mine(others[j].id, BurstStream(rows, cuts, rows')) == []
  {
    StreamIds(rows, cuts, rows');
    forall e | e in BurstStream(rows, cuts, rows') ensures e.id != others[j].id {
      var s :| s in rows && s.id == e.id;
      var i :| 0 <= i < |rows| && rows[i] == s;
      assert (rows + others)[i].id != (rows + others)[|rows| + j].id;
    }
    MineNone(others[j].id, BurstStream(rows, cuts, rows'));
  }

  lemma RetiredGone(c: Config, rows: seq<Row>, cuts: seq<seq<Token>>, rows': seq<Row>, others: seq<Row>, i: nat)
    requires |rows| == |cuts| == |rows'| && Distinct(rows + others) && i < |rows| && rows'[i].status == Finished
    requires forall i :: 0 <= i < |rows| ==> RowCommits(c, rows[i], cuts[i], rows'[i])
    ensures Gone(rows[i], Surviving(rows') + others)
  {
    SurvivingIn(rows');
    hide RowCommits;
    var q := rows + others;
    forall s' | s' in Surviving(rows') + others ensures s'.id != rows[i].id {
      if s' in Surviving(rows') {
        var j :| 0 <= j < |rows'| && rows'[j] == s';
        CommitsSame(c, rows[j], cuts[j], rows'[j]);
        assert i != j;
        assert q[i].id != q[j].id;
      } else {
        var j :| 0 <= j < |others| && others[j] == s';
        assert q[i].id != q[|rows| + j].id;
      }
    }
  }

  // ----- the two commits -----

  lemma CommittedCommits(c: Config, s: Row, token: Token, s': Row)
    requires Committed(c, s, token, s') && s.status != Finished
    ensures RowCommits(c, s, [token], s')
  {
    var grown := s.(toks := s.toks + [token], cached := |s.toks|, sched := 0);
    StopsSame(c, s, grown, grown.toks);
    hide Stops;
    assert [token][..1] == [token];
  }

  /** One-token cuts: the stream of an ordinary commit. */
  function Singles(tokens: seq<Token>): seq<seq<Token>> {
    seq(|tokens|, i requires 0 <= i < |tokens| => [tokens[i]])
  }

  lemma {:induction false} EmittedIsStream(rows: seq<Row>, tokens: seq<Token>, rows': seq<Row>)
    requires |rows| == |tokens| == |rows'|
    ensures Emitted(rows, rows', tokens) == BurstStream(rows, Singles(tokens), rows')
  {
    if rows != [] {
      EmittedIsStream(rows[1..], tokens[1..], rows'[1..]);
      assert Singles(tokens)[1..] == Singles(tokens[1..]);
      assert rows == [rows[0]] + rows[1..] && tokens == [tokens[0]] + tokens[1..] && rows' == [rows'[0]] + rows'[1..];
      EmittedCons(rows[0], rows[1..], rows'[0], rows'[1..], tokens[0], tokens[1..]);
      assert BurstEvents(rows[0].id, [tokens[0]], rows'[0].status == Finished)
        == [Event(rows[0].id, tokens[0], rows'[0].status == Finished)];
    }
  }

  lemma AlikeRows(q: seq<Row>, q': seq<Row>)
    requires |q| == |q'| && forall i :: 0 <= i < |q| ==> Same(q[i], q'[i]) && q'[i].toks == q[i].toks
    ensures Alike(q, q')
  {
    forall s | s in q ensures exists s' :: s' in q' && Same(s, s') && s'.toks == s.toks {
      var i :| 0 <= i < |q| && q[i] == s;
      assert q'[i] in q';
    }
    forall s' | s' in q' ensures Known(s'.id, q) {
      var i :| 0 <= i < |q'| && q'[i] == s';
      assert Same(q[i], q'[i]) && q[i] in q;
    }
  }

  lemma AlikeSwap(a: seq<Row>, b: seq<Row>)
    ensures Alike(a + b, b + a)
  {
    forall s | s in a + b ensures exists s' :: s' in b + a && Same(s, s') && s'.toks == s.toks { assert s in b + a; }
    forall s' | s' in b + a ensures Known(s'.id, a + b) { assert s' in a + b; }
  }

  /** The scheduled chunk of the waiting head advances; the queue is otherwise the same. */
  function Advanced(y: Sys): seq<Row> {
    if ChunkRows(y) == [] then y.waiting
    else
      var s := y.waiting[0];
      [s.(cached := s.cached + s.sched, sched := 0)] + y.waiting[1..]
  }

  lemma PostprocessWaiting(c: Config, y: Sys, ids: seq<nat>, tokens: seq<Token>, staged: Coverage)
    requires c.Valid() && Ready(c, y, ids) && |tokens| == |ids| && AllInVocabulary(c, tokens)
    ensures Postprocess(c, y, tokens, staged).PostOk?
    ensures var z := Postprocess(c, y, tokens, staged).sys; z.waiting == Advanced(y) && z.mid == y.mid
  {
    ReadyParts(c, y, ids);
    hide Held, Postprocess, AllComplete, Ready, WaitShape, AllInVocabulary, PostRows, HashBlocks, Surviving, Covered;
    var n := |y.running|;
    PostprocessSplits(c, y, tokens, staged);
    var ra := PostRows(c, y.pool, y.running, tokens[..n]);
    var rb := PostRows(c, ra.pool, ChunkRows(y), tokens[n..]);
    if ChunkRows(y) == [] {
      ChunkNothing(c, ra.pool, tokens[n..]);
      assert y.waiting[0..] == y.waiting;
    } else {
      ChunkIsPartial(y);
      ChunkAdvances(c, ra.pool, y.waiting[0], tokens[n..][0], tokens[n..]);
    }
  }

  lemma ChunkNothing(c: Config, p: Pool, ts: seq<Token>)
    requires c.Valid()
    ensures PostRows(c, p, [], ts).rows == []
  {
  }

  lemma ChunkAdvances(c: Config, p: Pool, s: Row, t: Token, ts: seq<Token>)
    requires c.Valid() && Partial(s) && ts != [] && ts[0] == t
    ensures PostRows(c, p, [s], ts).rows == [s.(cached := s.cached + s.sched, sched := 0)]
  {
    hide HashBlocks;
    var r := PostRow(c, p, s, t);
    assert [s][1..] == [];
    assert PostRows(c, r.pool, [s][1..], ts[1..]).rows == [];
  }

  lemma OrdinaryBatch(c: Config, y: Sys, ts: seq<Token>, rows': seq<Row>, z: Sys, staged: Coverage)
    requires |ts| == |rows'| == |y.running| && Distinct(y.running + y.waiting)
    requires forall i :: 0 <= i < |rows'| ==> y.running[i].status != Finished && Committed(c, y.running[i], ts[i], rows'[i])
    requires z.running == Covered(Surviving(rows'), staged) && z.waiting == Advanced(y)
    ensures Delivers(c, Rows(y), Emitted(y.running, rows', ts), Rows(z))
  {
    hide Committed, RowCommits, Delivers, Alike, BurstStream, Emitted, Distinct, Surviving;
    forall i | 0 <= i < |ts| ensures RowCommits(c, y.running[i], Singles(ts)[i], rows'[i]) {
      CommittedCommits(c, y.running[i], ts[i], rows'[i]);
    }
    BatchDelivers(c, y.running, Singles(ts), rows', y.waiting);
    EmittedIsStream(y.running, ts, rows');
    AfterBatch(rows', y.waiting, z);
    AlikeSwap(y.waiting, y.running);
    AlikeAround(c, Rows(y), y.running + y.waiting, Emitted(y.running, rows', ts), Surviving(rows') + y.waiting, Rows(z));
  }

  /** An ordinary commit delivers exactly one token of every running row. */
  lemma OrdinaryDelivers(c: Config, y: Sys, ids: seq<nat>, tokens: seq<Token>, staged: Coverage)
    requires c.Valid() && Ready(c, y, ids) && |tokens| == |ids| && AllInVocabulary(c, tokens)
    requires StagedFits(y.running, staged)
    ensures var r := Postprocess(c, y, tokens, staged);
      r.PostOk? && Delivers(c, Rows(y), r.events, Rows(r.sys))
  {
    hide Ready, Postprocess, AllInVocabulary, StagedFits, Idle, Committed, Delivers, Advanced, PostRows, Covered, Distinct,
         Emitted, Surviving, Rows;
    PostprocessKeeps(c, y, ids, tokens, staged);
    PostprocessWaiting(c, y, ids, tokens, staged);
    ReadyRunning(c, y, ids);
    var ts := tokens[..|y.running|];
    var out := PostRows(c, y.pool, y.running, ts);
    forall i | 0 <= i < |out.rows| ensures y.running[i].status != Finished && Committed(c, y.running[i], ts[i], out.rows[i]) {
      assert ts[i] == tokens[i];
    }
    OrdinaryBatch(c, y, ts, out.rows, Postprocess(c, y, tokens, staged).sys, staged);
  }

  /** Committed queues hold the survivors and the waiting requests. */
  lemma AfterBatch(post: seq<Row>, waiting: seq<Row>, y: Sys)
    requires |y.running| == |Surviving(post)| && |y.waiting| == |waiting|
    requires forall i :: 0 <= i < |y.running| ==> Same(Surviving(post)[i], y.running[i]) && y.running[i].toks == Surviving(post)[i].toks
    requires forall i :: 0 <= i < |y.waiting| ==> Same(waiting[i], y.waiting[i]) && y.waiting[i].toks == waiting[i].toks
    ensures Alike(Surviving(post) + waiting, Rows(y))
  {
    hide Alike, Same, Surviving;
    AlikeRows(Surviving(post) + waiting, y.running + y.waiting);
    AlikeSwap(y.running, y.waiting);
    AlikeTrans(Surviving(post) + waiting, y.running + y.waiting, Rows(y));
  }

  lemma ReadyRunning(c: Config, y: Sys, ids: seq<nat>)
    requires c.Valid() && Ready(c, y, ids)
    ensures |y.running| <= |ids| && Distinct(y.running + y.waiting)
    ensures forall i :: 0 <= i < |y.running| ==> y.running[i].status != Finished
  {
    ReadyParts(c, y, ids);
    WaitFirst(y.waiting, y.running);
    HeldPerm(c, y.pool, Rows(y), y.running + y.waiting);
  }

  /** A row of a burst commits its whole cut. */
  lemma BurstCommits(c: Config, s: Row, full: Row, burst: seq<Token>, ts: seq<Token>, trimmed: Row, s': Row)
    requires Planned(s) && CutIs(c, full, burst, ts) && Same(s, full) && full.toks == s.toks
    requires Same(s, trimmed) && trimmed.toks == s.toks && trimmed.status == Running && ts != []
    requires Committed(c, Bumped(trimmed, ts), Last(ts), s')
    ensures RowCommits(c, trimmed, ts, s')
  {
    var b := Bumped(trimmed, ts);
    assert b.toks + [Last(ts)] == trimmed.toks + ts;
    var grown := b.(toks := b.toks + [Last(ts)], cached := |b.toks|, sched := 0);
    StopsSame(c, trimmed, grown, grown.toks);
    hide Stops;
    forall k: nat | 1 <= k <= |ts| - 1 ensures !Stops(c, trimmed.(toks := trimmed.toks + ts[..k])) {
      StopsSame(c, full, trimmed, full.toks + ts[..k]);
    }
  }

  /** A kept lease changes only tables. */
  lemma TrimmedAlike(base: Sys, trimmed: seq<Row>)
    requires |trimmed| == |base.running| && Distinct(base.running + base.waiting)
    requires forall i :: 0 <= i < |trimmed| ==> trimmed[i] == base.running[i].(table := trimmed[i].table)
    ensures Distinct(trimmed + base.waiting) && Alike(Rows(base), trimmed + base.waiting)
  {
    var a, b := base.running + base.waiting, trimmed + base.waiting;
    forall i | 0 <= i < |a| ensures Same(a[i], b[i]) && b[i].toks == a[i].toks {
      if i < |trimmed| { assert b[i] == a[i].(table := b[i].table); }
    }
    forall i, j | 0 <= i < j < |b| ensures b[i].id != b[j].id { assert a[i].id != a[j].id; }
    hide Alike, Same;
    AlikeSwap(base.waiting, base.running);
    AlikeRows(a, b);
    AlikeTrans(Rows(base), a, b);
  }

  lemma SettledAlike(post: seq<Row>, waiting: seq<Row>, z: Sys)
    requires |z.running| == |Surviving(post)| && Redrafted(Surviving(post), z.running) && z.waiting == waiting
    ensures Alike(Surviving(post) + waiting, Rows(z))
  {
    hide Surviving, Alike;
    AfterBatch(post, waiting, z);
  }

  lemma SpeculativeBatch(c: Config, base: Sys, trimmed: seq<Row>, cuts: seq<seq<Token>>, post: seq<Row>, z: Sys)
    requires |trimmed| == |cuts| == |post| == |base.running| && Distinct(base.running + base.waiting)
    requires forall i :: 0 <= i < |trimmed| ==> trimmed[i] == base.running[i].(table := trimmed[i].table)
    requires forall i :: 0 <= i < |trimmed| ==> RowCommits(c, trimmed[i], cuts[i], post[i])
    requires |z.running| == |Surviving(post)| && Redrafted(Surviving(post), z.running) && z.waiting == base.waiting
    ensures Delivers(c, Rows(base), BurstStream(trimmed, cuts, post), Rows(z))
  {
    hide RowCommits, Delivers, Alike, BurstStream, Surviving, Distinct, Same;
    TrimmedAlike(base, trimmed);
    BatchDelivers(c, trimmed, cuts, post, base.waiting);
    SettledAlike(post, base.waiting, z);
    AlikeAround(c, Rows(base), trimmed + base.waiting, BurstStream(trimmed, cuts, post), Surviving(post) + base.waiting, Rows(z));
  }

  /** The rows a burst commits, as single commits of their last tokens. */
  lemma SpeculativeRows(c: Config, base: Sys, y: Sys, lease: Lease, k: nat, prepared: bool, results: seq<SpecRow>)
    requires c.Valid() && Leased(c, base, y, lease, k, prepared) && ResultsValid(c, k, results, |base.running|)
    ensures |y.running| == |base.running| == |lease.rows|
    ensures var cuts := Cuts(c, y.running, results);
      var keep := KeepCounts(c, y.running, lease.rows, cuts);
      && KeepFits(lease.rows, keep)
      && (forall i :: 0 <= i < |cuts| ==> cuts[i] != [])
      && var trimmed := Trimmed(base.running, lease.rows, keep);
         var post := PostRows(c, Keeping(LeaseBase(base, lease, prepared).pool, Kept(lease.rows, keep)),
                              BumpedRows(trimmed, cuts), Lasts(cuts));
         && |post.rows| == |trimmed|
         && (forall i :: 0 <= i < |trimmed| ==> RowCommits(c, trimmed[i], cuts[i], post.rows[i]))
         && Distinct(base.running + base.waiting)
  {
    CommitCuts(c, base, y, lease, k, prepared, results);
    LeasedParts(c, base, y, lease, k, prepared);
    PureReady0(c, base);
    var cuts := Cuts(c, y.running, results);
    var keep := KeepCounts(c, y.running, lease.rows, cuts);
    var trimmed := Trimmed(base.running, lease.rows, keep);
    hide PureDecode, LeaseOf, LeaseBase, RowCommits, CutIs, KeepsPrefix, ResultsValid, Planned, SuffixFor, Leased, Cut, Distinct,
         KeepFits, CeilDiv, Kept;
    var p := Keeping(LeaseBase(base, lease, prepared).pool, Kept(lease.rows, keep));
    forall i | 0 <= i < |trimmed| ensures trimmed[i].status == Running && trimmed[i].cached + 1 == |trimmed[i].toks| {
      assert trimmed[i] == base.running[i].(table := trimmed[i].table);
      assert Planned(base.running[i]);
      PlannedIs(base.running[i]);
    }
    BumpedComplete(trimmed, cuts);
    hide Complete, AllComplete, Keeping;
    PostRowsShape(c, p, BumpedRows(trimmed, cuts), Lasts(cuts));
    var post := PostRows(c, p, BumpedRows(trimmed, cuts), Lasts(cuts));
    hide PostRows, Committed;
    forall i | 0 <= i < |trimmed| ensures RowCommits(c, trimmed[i], cuts[i], post.rows[i]) {
      LeasedSame(c, base, y, lease, k, prepared, i);
      assert Committed(c, BumpedRows(trimmed, cuts)[i], Lasts(cuts)[i], post.rows[i]);
      BurstCommits(c, base.running[i], y.running[i], results[i].committed, cuts[i], trimmed[i], post.rows[i]);
    }
  }

  lemma PlannedIs(s: Row)
    requires Planned(s)
    ensures s.status == Running && s.cached + 1 == |s.toks|
  {
  }

  /** A burst commit delivers every row's whole cut, at least one token each. */
  lemma SpeculativeDelivers(c: Config, base: Sys, y: Sys, lease: Lease, k: nat, prepared: bool, results: seq<SpecRow>)
    requires c.Valid() && Leased(c, base, y, lease, k, prepared) && ResultsValid(c, k, results, |base.running|)
    ensures var r := CommitSpeculative(c, y, lease, k, results);
      r.CommitOk? && Delivers(c, Rows(base), r.events, Rows(r.sys))
  {
    hide CommitSpeculative, Leased, LeaseBase, RowCommits, Delivers, ResultsValid, Idle, Distinct, PostRows, Keeping, Kept,
         Cut, KeepFits, Surviving, Redrafted, BurstStream, CeilDiv, Rows, Cuts, KeepCounts, Trimmed, BumpedRows, Lasts;
    ResultsCount(c, k, results, |base.running|);
    CommitKeeps(c, base, y, lease, k, prepared, results);
    SpeculativeRows(c, base, y, lease, k, prepared, results);
    var r := CommitSpeculative(c, y, lease, k, results);
    var cuts := Cuts(c, y.running, results);
    var keep := KeepCounts(c, y.running, lease.rows, cuts);
    var trimmed := Trimmed(base.running, lease.rows, keep);
    TrimmedRows(base.running, lease.rows, keep);
    var post := PostRows(c, Keeping(LeaseBase(base, lease, prepared).pool, Kept(lease.rows, keep)),
                         BumpedRows(trimmed, cuts), Lasts(cuts));
    SpeculativeBatch(c, base, trimmed, cuts, post.rows, r.sys);
  }

  lemma PureReady0(c: Config, y: Sys)
    requires c.Valid() && PureDecode(c, y)
    ensures Distinct(y.running + y.waiting) && AllPlanned(y.running)
    ensures forall i :: 0 <= i < |y.running| ==> y.running[i].status == Running && Planned(y.running[i])
  {
    PureHeld(c, y);
  }

  lemma BumpedComplete(rows: seq<Row>, cuts: seq<seq<Token>>)
    requires |rows| == |cuts| && forall i :: 0 <= i < |cuts| ==> cuts[i] != []
    requires forall i :: 0 <= i < |rows| ==> rows[i].status == Running && rows[i].cached + 1 == |rows[i].toks|
    ensures AllComplete(BumpedRows(rows, cuts))
  {
  }

  lemma LeasedSame(c: Config, base: Sys, y: Sys, lease: Lease, k: nat, prepared: bool, i: nat)
    requires c.Valid() && Leased(c, base, y, lease, k, prepared) && i < |base.running|
    ensures |y.running| == |base.running| && Same(base.running[i], y.running[i])
    ensures y.running[i].toks == base.running[i].toks && Planned(base.running[i])
  {
    RunningFields(c, base, y, lease, k, prepared, i);
    LeasedParts(c, base, y, lease, k, prepared);
    PureReady0(c, base);
  }
}
