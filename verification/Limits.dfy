/** The length limit that admission checks, over every run: no request outgrows the model,
    and no pass writes a position beyond it. */
module Limits {
  import opened Types
  import opened Queues
  import opened Scheduling
  import opened States
  import opened Leases
  import opened Transactions
  import opened Requests
  import opened Delivery
  import opened Protocol
  import opened Safety
  import opened Accounts
  import opened Writes

  /** A request as it was admitted. */
  ghost predicate WasAdmissible(c: Config, s: Row) {
    s.prompt == |s.toks| && s.maxTokens >= 1 && Admissible(c, s.toks, s.maxTokens)
  }

  /** Only admission adds to the history of admitted requests, and only admissible ones. */
  lemma StepAdmits(c: Config, w: World, a: Action, w': World)
    requires c.Valid() && Step(c, w, a, w') && forall s :: s in w.past.admitted ==> WasAdmissible(c, s)
    ensures forall s :: s in w'.past.admitted ==> WasAdmissible(c, s)
  {
    hide Step, WasAdmissible;
    if a.AddRequest? {
      AddAdmits(c, w, a, w');
    } else {
      OthersAdmitNone(c, w, a, w');
    }
  }

  lemma AddAdmits(c: Config, w: World, a: Action, w': World)
    requires c.Valid() && Step(c, w, a, w') && a.AddRequest? && forall s :: s in w.past.admitted ==> WasAdmissible(c, s)
    ensures forall s :: s in w'.past.admitted ==> WasAdmissible(c, s)
  {
    hide Admit, Admissible, UnusedId;
    AdmitExact(c, w.sys, a.id, a.prompt, a.maxTokens, a.ignoreEos);
  }

  lemma OthersAdmitNone(c: Config, w: World, a: Action, w': World)
    requires c.Valid() && Step(c, w, a, w') && !a.AddRequest?
    ensures w'.past.admitted == w.past.admitted
  {
    if a.CancelRequests? {
      hide Step;
      CancelAdmitsNone(c, w, a, w');
    } else {
      hide Cancels, Admits;
    }
  }

  lemma CancelAdmitsNone(c: Config, w: World, a: Action, w': World)
    requires c.Valid() && Step(c, w, a, w') && a.CancelRequests?
    ensures w'.past.admitted == w.past.admitted
  {
    hide NamesQueued, Requests.Cancel, Rows;
  }

  lemma {:induction false} RunAdmits(c: Config, run: seq<World>, acts: seq<Action>, n: nat)
    requires c.Valid() && Run(c, run, acts) && n < |run|
    ensures forall s :: s in run[n].past.admitted ==> WasAdmissible(c, s)
  {
    hide Step, WasAdmissible;
    if n > 0 {
      RunAdmits(c, run, acts, n - 1);
      StepAdmits(c, run[n - 1], acts[n - 1], run[n]);
    }
  }

  /** A queued request is one that was admitted, with the same prompt and token limit. */
  lemma QueuedWasAdmitted(c: Config, past: History, q: seq<Row>, live: seq<Row>, s: Row) returns (s0: Row)
    requires Accounts.Accounts(c, past, q) && Distinct(live) && s in live && forall x :: x in live <==> x in q
    ensures s0 in past.admitted && Same(s0, s) && s0.toks <= s.toks
  {
    hide RunsThrough, Mine, Open, Ends;
    assert Known(s.id, past.admitted);
    s0 :| s0 in past.admitted && s0.id == s.id;
    assert Accounted(c, s0, past, q) && !Gone(s0, q);
    var s' :| s' in q && Continues(c, s0, Mine(s0.id, past.log), s');
    assert s'.id == s.id;
  }

  /** Row by row, in every phase: what is scheduled lies within the tokens, and these
      leave room for one more completion. */
  lemma RowWithin(c: Config, w: World, i: nat)
    requires c.Valid() && Shape(c, w) && i < |LiveRows(w)|
    ensures var s := LiveRows(w)[i];
      && s.cached + s.sched <= |s.toks| && |s.toks| < s.prompt + s.maxTokens
      && (w.phase.Leasing? && i < |w.sys.running| ==> |s.toks| + w.phase.k < s.prompt + s.maxTokens)
  {
    hide Leased, Held, Common;
    var q := LiveRows(w);
    if w.phase.Leasing? {
      var ph := w.phase;
      LeasedWithin(c, ph.base, w.sys, ph.lease, ph.k, ph.prepared, i);
    } else {
      ShapeCommon(c, w);
      CommonHeld(c, w.sys);
      HeldPerm(c, w.sys.pool, Rows(w.sys), q);
      HeldMember(c, w.sys.pool, q, q[i]);
    }
  }

  lemma CommonHeld(c: Config, y: Sys)
    requires c.Valid() && Common(c, y, [])
    ensures Held(c, y.pool, Rows(y)) && Perm(Rows(y), y.running + y.waiting)
  {
    hide Held;
    assert y.waiting + y.running + [] == Rows(y);
  }

  lemma LeasedWithin(c: Config, base: Sys, y: Sys, lease: Lease, k: nat, prepared: bool, i: nat)
    requires c.Valid() && Leased(c, base, y, lease, k, prepared) && i < |y.running + y.waiting|
    ensures var s := (y.running + y.waiting)[i];
      && s.cached + s.sched <= |s.toks| && |s.toks| < s.prompt + s.maxTokens
      && (i < |y.running| ==> |s.toks| + k < s.prompt + s.maxTokens)
  {
    hide PureDecode, LeaseOf, LeaseBase, Planned, Held;
    LeasedNonEmpty(c, base, y, lease, k, prepared);
    RunningFields(c, base, y, lease, k, prepared, 0);
    PureHeld(c, base);
    HeldMember(c, base.pool, base.running + base.waiting, (base.running + base.waiting)[i]);
    if i < |y.running| {
      RunningFields(c, base, y, lease, k, prepared, i);
      assert SuffixFor(c, base.running[i], lease.rows[i], k);
    }
  }

  /** The length limit over every run: a queued request, even with every completion token
      it may still get, and with every proposal under verification, fits the model. */
  lemma LengthBounded(c: Config, run: seq<World>, acts: seq<Action>, n: nat, i: nat)
    requires c.Valid() && Run(c, run, acts) && n < |run| && i < |LiveRows(run[n])|
    ensures var w := run[n]; var s := LiveRows(w)[i];
      && s.prompt + s.maxTokens - 1 <= c.maxModelLen && |s.toks| <= c.maxModelLen
      && s.cached + s.sched <= c.maxModelLen
      && (w.phase.Leasing? && i < |w.sys.running| ==> |s.toks| + w.phase.k <= c.maxModelLen)
  {
    hide Shape, Accounts.Accounts, Step, Distinct;
    var w := run[n];
    RunShape(c, run, acts, n);
    RowWithin(c, w, i);
    RunAccounts(c, run, acts, n);
    QueuesSafe(c, run, acts, n);
    var s := LiveRows(w)[i];
    var s0 := QueuedWasAdmitted(c, w.past, Rows(w.sys), LiveRows(w), s);
    RunAdmits(c, run, acts, n);
    assert WasAdmissible(c, s0);
  }

  /** The answers of every run: whatever failed, was preempted or was speculated on the way,
      a request that was admitted and not cancelled is queued or has its complete answer. */
  lemma RunAnswers(c: Config, run: seq<World>, acts: seq<Action>, n: nat, s: Row)
    requires c.Valid() && Run(c, run, acts) && n < |run|
    requires s in run[n].past.admitted && s.id !in run[n].past.cancelled && Gone(s, Rows(run[n].sys))
    ensures Answer(c, s, Mine(s.id, run[n].past.log))
  {
    hide Step, Mine, Answer, Ends, Rows;
    var past := run[n].past;
    RunAccounts(c, run, acts, n);
    RunAdmits(c, run, acts, n);
    hide Run;
    assert Accounted(c, s, past, Rows(run[n].sys)) && WasAdmissible(c, s);
    NotActive(c, s, past, Rows(run[n].sys));
    EndsAnswers(c, s, Mine(s.id, past.log));
  }

  lemma NotActive(c: Config, s: Row, past: History, q: seq<Row>)
    requires Gone(s, q)
    ensures !Active(c, s, past, q)
  {
  }

  /** Every position a target pass writes, over every run, is a position of the model. */
  lemma WritesWithinModel(c: Config, run: seq<World>, acts: seq<Action>, n: nat, i: nat, a: nat)
    requires c.Valid() && Run(c, run, acts) && n < |run| && i < |LiveRows(run[n])| && Writes.Writes(run[n], i, a)
    ensures a < c.maxModelLen
  {
    hide Run;
    LengthBounded(c, run, acts, n, i);
  }
}
