/** The event stream of a run with admissions, cancellations, failures and aborts: at any
    point, what was reported for each request is exactly what the engine committed for it. */
module Accounts {
  import opened Types
  import opened Queues
  import opened Evolution
  import opened Scheduling
  import opened States
  import opened Progress
  import opened Commit
  import opened Leases
  import opened Speculation
  import opened Transactions
  import opened Undo
  import opened Requests
  import opened Delivery
  import opened Protocol
  import opened Truth
  import opened TruthSteps
  import opened TruthBurst
  import opened Safety

  /** Still queued: everything after its prompt was reported, in order, and no stopping
      condition was met on the way. */
  ghost predicate Active(c: Config, s: Row, past: History, q: seq<Row>) {
    s.id !in past.cancelled && exists s' :: s' in q && Continues(c, s, Mine(s.id, past.log), s')
  }

  /** Finished: reported up to its first stopping point, the last event marked. */
  ghost predicate Completed(c: Config, s: Row, past: History, q: seq<Row>) {
    s.id !in past.cancelled && Ends(c, s, Mine(s.id, past.log)) && Gone(s, q)
  }

  /** Cancelled: gone, with no finishing event and no missed stopping point. */
  ghost predicate Dropped(c: Config, s: Row, past: History, q: seq<Row>) {
    var mine := Mine(s.id, past.log);
    s.id in past.cancelled && Gone(s, q) && Open(mine) && RunsThrough(c, s, TokensIn(mine), |mine|)
  }

  ghost predicate Accounted(c: Config, s: Row, past: History, q: seq<Row>) {
    Active(c, s, past, q) || Completed(c, s, past, q) || Dropped(c, s, past, q)
  }

  /** The stream accounts for every request ever admitted, and for nothing else. */
  ghost predicate Accounts(c: Config, past: History, q: seq<Row>) {
    && (forall s :: s in past.admitted ==> Accounted(c, s, past, q))
    && (forall s :: s in q ==> Known(s.id, past.admitted))
    && (forall e :: e in past.log ==> Known(e.id, past.admitted))
    && (forall id :: id in past.cancelled ==> Known(id, past.admitted))
  }

  // ----- one request -----

  lemma CompletedThen(c: Config, s: Row, past: History, q: seq<Row>, ev: seq<Event>, q': seq<Row>)
    requires Gone(s, q) && Delivers(c, q, ev, q')
    ensures Gone(s, q') && Mine(s.id, past.log + ev) == Mine(s.id, past.log)
  {
    hide Goes;
    forall e | e in ev ensures e.id != s.id { assert Known(e.id, q); }
    MineNone(s.id, ev);
    MineConcat(s.id, past.log, ev);
    forall s' | s' in q' ensures s'.id != s.id { assert Known(s'.id, q); }
  }

  lemma ActiveThen(c: Config, s: Row, past: History, q: seq<Row>, ev: seq<Event>, q': seq<Row>)
    requires Active(c, s, past, q) && Delivers(c, q, ev, q')
    ensures Active(c, s, Logged(past, ev), q') || Completed(c, s, Logged(past, ev), q')
  {
    hide Mine, Continues, Ends, Delivers;
    GoesThen(c, s, q, past.log, ev, q');
  }

  lemma AccountedThen(c: Config, s: Row, past: History, q: seq<Row>, ev: seq<Event>, q': seq<Row>)
    requires Accounted(c, s, past, q) && Delivers(c, q, ev, q')
    ensures Accounted(c, s, Logged(past, ev), q')
  {
    hide Active, Delivers, Ends, Gone, Open, RunsThrough, Mine;
    if Active(c, s, past, q) {
      ActiveThen(c, s, past, q, ev, q');
    } else {
      CompletedThen(c, s, past, q, ev, q');
    }
  }

  // ----- a step that delivers -----

  lemma DeliversAccounts(c: Config, past: History, q: seq<Row>, ev: seq<Event>, q': seq<Row>)
    requires Accounts(c, past, q) && Delivers(c, q, ev, q')
    ensures Accounts(c, Logged(past, ev), q')
  {
    forall s | s in past.admitted ensures Accounted(c, s, Logged(past, ev), q') {
      hide Accounted, Delivers;
      AccountedThen(c, s, past, q, ev, q');
    }
    hide Goes, Accounted;
    forall s' | s' in q' ensures Known(s'.id, past.admitted) {
      assert Known(s'.id, q);
      var s :| s in q && s.id == s'.id;
      assert Known(s.id, past.admitted);
    }
    forall e | e in past.log + ev ensures Known(e.id, past.admitted) {
      if e in ev {
        assert Known(e.id, q);
        var s :| s in q && s.id == e.id;
        assert Known(s.id, past.admitted);
      }
    }
  }

  lemma AlikeAccounts(c: Config, past: History, q: seq<Row>, q': seq<Row>)
    requires Accounts(c, past, q) && Alike(q, q')
    ensures Accounts(c, past, q')
  {
    hide Accounts, Delivers, Alike;
    AlikeDelivers(c, q, q');
    DeliversAccounts(c, past, q, [], q');
    assert past.log + [] == past.log;
  }

  // ----- admission -----

  lemma AdmitAccounts(c: Config, past: History, q: seq<Row>, s: Row, q': seq<Row>)
    requires Accounts(c, past, q) && forall x :: x in past.admitted ==> x.id != s.id
    requires forall x :: x in q' <==> x in q || x == s
    ensures Accounts(c, past.(admitted := past.admitted + [s]), q')
  {
    var past' := past.(admitted := past.admitted + [s]);
    assert forall x :: x in past'.admitted <==> x in past.admitted || x == s;
    forall e | e in past.log ensures e.id != s.id && Known(e.id, past'.admitted) {
      assert Known(e.id, past.admitted);
      KnownMore(e.id, past.admitted, s);
    }
    forall id | id in past.cancelled ensures id != s.id && Known(id, past'.admitted) {
      assert Known(id, past.admitted);
      KnownMore(id, past.admitted, s);
    }
    MineNone(s.id, past.log);
    assert s.toks + [] == s.toks && TokensIn([]) == [];
    assert Continues(c, s, [], s);
    assert Active(c, s, past', q');
    hide Continues, Ends, Mine, RunsThrough;
    forall x | x in past.admitted ensures Accounted(c, x, past', q') {
      assert Accounted(c, x, past, q) && x.id != s.id;
    }
    forall x | x in q' ensures Known(x.id, past'.admitted) {
      if x == s { assert s in past'.admitted; } else { KnownMore(x.id, past.admitted, s); }
    }
  }

  lemma KnownMore(id: nat, q: seq<Row>, s: Row)
    requires Known(id, q)
    ensures Known(id, q + [s])
  {
    var x :| x in q && x.id == id;
    assert x in q + [s];
  }

  // ----- cancellation -----

  lemma CancelAccounts(c: Config, past: History, q: seq<Row>, gone: set<nat>, q': seq<Row>)
    requires Accounts(c, past, q)
    requires forall id :: id in gone <==> id in past.cancelled || (Known(id, q) && !Known(id, q'))
    requires forall x :: x in q' ==> x in q
    requires forall x :: x in q && Known(x.id, q') ==> x in q'
    ensures Accounts(c, past.(cancelled := gone), q')
  {
    var past' := past.(cancelled := gone);
    hide Continues, Ends, Mine, RunsThrough;
    forall s | s in past.admitted ensures Accounted(c, s, past', q') {
      assert Accounted(c, s, past, q);
      if Active(c, s, past, q) {
        CancelOne(c, past, q, gone, q', s);
      } else {
        assert Gone(s, q) && !Known(s.id, q) && Gone(s, q');
      }
    }
    forall id | id in gone ensures Known(id, past.admitted) {
      if id !in past.cancelled {
        var s :| s in q && s.id == id;
        assert Known(s.id, past.admitted);
      }
    }
  }

  lemma CancelOne(c: Config, past: History, q: seq<Row>, gone: set<nat>, q': seq<Row>, s: Row)
    requires Active(c, s, past, q)
    requires forall id :: id in gone <==> id in past.cancelled || (Known(id, q) && !Known(id, q'))
    requires forall x :: x in q && Known(x.id, q') ==> x in q'
    ensures Accounted(c, s, past.(cancelled := gone), q')
  {
    var mine := Mine(s.id, past.log);
    var s' :| s' in q && Continues(c, s, mine, s');
    assert s'.id == s.id && Open(mine) && RunsThrough(c, s, TokensIn(mine), |mine|);
    assert Known(s.id, q);
    hide Continues, Ends, Mine, RunsThrough;
    if Known(s.id, q') {
      assert s' in q';
    } else {
      assert Gone(s, q') by { NotKnown(s, q'); }
    }
  }

  lemma NotKnown(s: Row, q: seq<Row>)
    requires !Known(s.id, q)
    ensures Gone(s, q)
  {
  }

  lemma {:induction false} NamedIn(q: seq<Row>, targets: set<nat>, id: nat)
    ensures id in Named(q, targets) <==> id in targets && Known(id, q)
  {
    if q != [] {
      NamedIn(q[1..], targets, id);
      assert q == [q[0]] + q[1..];
      if Known(id, q[1..]) { var s :| s in q[1..] && s.id == id; assert s in q; }
      if Known(id, q) && q[0].id != id { var s :| s in q && s.id == id; assert s in q[1..]; }
    }
  }

  lemma RemovedIs(c: Config, y: Sys, targets: set<nat>)
    requires c.Valid() && Common(c, y, [])
    ensures var r := Cancel(y, targets);
      && r.CancelOk?
      && (forall x :: x in Rows(r.sys) <==> x in Rows(y) && x.id !in targets)
      && (forall id :: id in ToSet(r.ids) <==> id in targets && Known(id, Rows(y)))
  {
    hide Common, Cancel, Idle;
    CancelKeeps(c, y, targets);
    UnnamedIn(y.waiting, targets);
    UnnamedIn(y.running, targets);
    hide Unnamed, Named;
    forall id ensures id in Named(y.waiting, targets) + Named(y.running, targets) <==> id in targets && Known(id, Rows(y)) {
      NamedIn(y.waiting, targets, id);
      NamedIn(y.running, targets, id);
      KnownEither(id, y);
    }
  }

  lemma KnownEither(id: nat, y: Sys)
    ensures Known(id, Rows(y)) <==> Known(id, y.waiting) || Known(id, y.running)
  {
    if Known(id, y.waiting) { var s :| s in y.waiting && s.id == id; assert s in Rows(y); }
    if Known(id, y.running) { var s :| s in y.running && s.id == id; assert s in Rows(y); }
  }

  lemma RemoveAccounts(c: Config, w: World, targets: set<nat>, w': World)
    requires c.Valid() && Common(c, w.sys, []) && Accounts(c, w.past, Rows(w.sys)) && Removes(w, targets, w')
    ensures Accounts(c, w'.past, Rows(w'.sys))
  {
    hide Common, Cancel, Accounts, Rows;
    RemovedIs(c, w.sys, targets);
    var q, q' := Rows(w.sys), Rows(w'.sys);
    forall id ensures id in w'.past.cancelled <==> id in w.past.cancelled || (Known(id, q) && !Known(id, q')) {
      if Known(id, q) && id !in targets { var s :| s in q && s.id == id; assert s in q'; }
    }
    forall x | x in q && Known(x.id, q') ensures x in q' {}
    CancelAccounts(c, w.past, q, w'.past.cancelled, q');
  }

  // ----- the steps -----

  lemma UndoAlike(c: Config, y: Sys)
    requires c.Valid() && PureDecode(c, y)
    ensures UndoSchedule(c, y).Undone? && Alike(Rows(y), Rows(UndoSchedule(c, y).sys)) && Common(c, UndoSchedule(c, y).sys, [])
  {
    hide PureDecode, UndoSchedule, Alike, Common;
    UndoKeeps(c, y);
    var z := UndoSchedule(c, y).sys;
    forall i | 0 <= i < |Rows(y)| ensures Same(Rows(y)[i], Rows(z)[i]) && Rows(z)[i].toks == Rows(y)[i].toks {
      if i >= |y.waiting| { assert UndoneRow(c, y.running[i - |y.waiting|], z.running[i - |y.waiting|]); }
    }
    AlikeRows(Rows(y), Rows(z));
  }

  /** A lease changes only block tables. */
  lemma LeaseAlike(c: Config, base: Sys, y: Sys, lease: Lease, k: nat, prepared: bool)
    requires c.Valid() && Leased(c, base, y, lease, k, prepared)
    ensures Alike(Rows(base), Rows(y)) && Alike(Rows(y), Rows(base))
  {
    hide Leased, Alike, Same, PureDecode, LeaseOf, LeaseBase;
    LeasedParts(c, base, y, lease, k, prepared);
    LeasedNonEmpty(c, base, y, lease, k, prepared);
    LeasedSame(c, base, y, lease, k, prepared, 0);
    forall i | 0 <= i < |base.running| ensures Same(base.running[i], y.running[i]) && y.running[i].toks == base.running[i].toks {
      LeasedSame(c, base, y, lease, k, prepared, i);
    }
    RunningAlike(base, y);
  }

  lemma RunningAlike(base: Sys, y: Sys)
    requires y.waiting == base.waiting && |y.running| == |base.running|
    requires forall i :: 0 <= i < |base.running| ==> Same(base.running[i], y.running[i]) && y.running[i].toks == base.running[i].toks
    ensures Alike(Rows(base), Rows(y)) && Alike(Rows(y), Rows(base))
  {
    hide Alike;
    AlikeRows(Rows(base), Rows(y));
    AlikeRows(Rows(y), Rows(base));
  }

  lemma AbortAlike(c: Config, base: Sys, y: Sys, lease: Lease, k: nat, prepared: bool)
    requires c.Valid() && Leased(c, base, y, lease, k, prepared)
    ensures var r := AbortSpeculative(c, y, lease);
      r.Undone? && Common(c, r.sys, []) && Alike(Rows(y), Rows(r.sys))
  {
    hide Leased, PureDecode, UndoSchedule, AbortSpeculative, Alike, Common;
    AbortKeeps(c, base, y, lease, k, prepared);
    LeaseBasePure(c, base, y, lease, k, prepared);
    UndoAlike(c, LeaseBase(base, lease, prepared));
    LeaseAlike(c, base, y, lease, k, prepared);
    AlikeTrans(Rows(y), Rows(base), Rows(AbortSpeculative(c, y, lease).sys));
  }

  lemma RequestAccounts(c: Config, w: World, a: Action, w': World)
    requires c.Valid() && Shape(c, w) && Step(c, w, a, w') && Accounts(c, w.past, Rows(w.sys))
    requires a.AddRequest? || a.ScheduleBatch?
    ensures Accounts(c, w'.past, Rows(w'.sys))
  {
    hide Idle, Schedule, Accounts, Alike, Cores;
    if a.AddRequest? {
      if w' != w {
        AdmitAccounts(c, w.past, Rows(w.sys), NewRow(a.id, a.prompt, a.maxTokens, a.ignoreEos), Rows(w'.sys));
      }
    } else {
      NothingToSchedule(c, w.sys);
      if w' != w {
        ScheduleCores(c, w.sys);
        CoresAlike(Rows(w.sys), Rows(w'.sys));
        AlikeAccounts(c, w.past, Rows(w.sys), Rows(w'.sys));
      }
    }
  }

  lemma CancelStepAccounts(c: Config, w: World, targets: set<nat>, w': World)
    requires c.Valid() && Shape(c, w) && Cancels(c, w, targets, w') && Accounts(c, w.past, Rows(w.sys))
    ensures Accounts(c, w'.past, Rows(w'.sys))
  {
    hide Leased, Idle, Ready, PureDecode, Common, Removes, AbortSpeculative, NamesQueued, Accounts, Alike, Rows;
    if NamesQueued(w.sys, targets) {
      if w.phase.Leasing? {
        var ph := w.phase;
        AbortAlike(c, ph.base, w.sys, ph.lease, ph.k, ph.prepared);
        var y := AbortSpeculative(c, w.sys, ph.lease).sys;
        AlikeAccounts(c, w.past, Rows(w.sys), Rows(y));
        RemoveAccounts(c, w.(sys := y, phase := Free), targets, w');
      } else {
        ShapeCommon(c, w);
        RemoveAccounts(c, w, targets, w');
      }
    }
  }

  /** An accepted commit of a scheduled batch. */
  lemma CommitAccounts(c: Config, past: History, y: Sys, ids: seq<nat>, tokens: seq<Token>, staged: Coverage)
    requires c.Valid() && Ready(c, y, ids) && StagedFits(y.running, staged) && Postprocess(c, y, tokens, staged).PostOk?
    requires Accounts(c, past, Rows(y))
    ensures var r := Postprocess(c, y, tokens, staged); Accounts(c, Logged(past, r.events), Rows(r.sys))
  {
    hide Ready, StagedFits, Postprocess, Accounts, Delivers, Rows;
    AcceptedCommit(c, y, ids, tokens, staged);
    OrdinaryDelivers(c, y, ids, tokens, staged);
    var r := Postprocess(c, y, tokens, staged);
    DeliversAccounts(c, past, Rows(y), r.events, Rows(r.sys));
  }

  lemma OrdinaryAccounts(c: Config, w: World, a: Action, w': World)
    requires c.Valid() && Shape(c, w) && Step(c, w, a, w') && Accounts(c, w.past, Rows(w.sys))
    requires a.CommitBatch? || a.CommitShadow?
    ensures Accounts(c, w'.past, Rows(w'.sys))
  {
    hide Ready, PureDecode, StagedFits, Postprocess, Accounts, Rows, StagedFor, Distinct, Cancels, AllPlanned, Scribble, Ran;
    if w' != w {
      if a.CommitBatch? {
        assert StagedFits(w.sys.running, map[]) by { NothingStaged(c, w.dkv, w.sys.running); }
        CommitAccounts(c, w.past, w.sys, w.phase.ids, a.tokens, map[]);
      } else {
        PureReady(c, w.sys);
        PureDistinct(c, w.sys);
        StagedForFits(w.sys.running);
        CommitAccounts(c, w.past, w.sys, Ids(w.sys.running), a.tokens, StagedFor(w.sys.running));
      }
    }
  }

  lemma BurstAccounts(c: Config, w: World, a: Action, w': World)
    requires c.Valid() && Shape(c, w) && Step(c, w, a, w') && Accounts(c, w.past, Rows(w.sys)) && a.CommitBurst?
    ensures Accounts(c, w'.past, Rows(w'.sys))
  {
    hide Leased, CommitSpeculative, Accounts, Rows, Cancels, Alike, Delivers, ResultsValid;
    if w' != w {
      var ph := w.phase;
      AcceptedBurst(c, ph.base, w.sys, ph.lease, ph.k, ph.prepared, a.results);
      SpeculativeDelivers(c, ph.base, w.sys, ph.lease, ph.k, ph.prepared, a.results);
      LeaseAlike(c, ph.base, w.sys, ph.lease, ph.k, ph.prepared);
      AlikeAccounts(c, w.past, Rows(w.sys), Rows(ph.base));
      var r := CommitSpeculative(c, w.sys, ph.lease, ph.k, a.results);
      DeliversAccounts(c, w.past, Rows(ph.base), r.events, Rows(r.sys));
    }
  }

  lemma CycleAccounts(c: Config, w: World, a: Action, w': World)
    requires c.Valid() && Shape(c, w) && Step(c, w, a, w') && Accounts(c, w.past, Rows(w.sys))
    requires a.PlanCycle? || a.Handoff? || a.AbortCycle?
    ensures Accounts(c, w'.past, Rows(w'.sys))
  {
    hide Leased, Accounts, Rows, Cancels, Alike, PlanSpeculative, Rollback, UndoSchedule, AbortSpeculative, PureDecode, Ready,
         Common, Idle, LeaseOf, LeaseBase;
    if w' != w {
      if a.PlanCycle? {
        PlanKeeps(c, w.sys, a.routeCap, a.certified);
        var ph := w'.phase;
        LeaseAlike(c, w.sys, w'.sys, ph.lease, ph.k, false);
      } else if a.Handoff? {
        var ph := w.phase;
        LeasedParts(c, ph.base, w.sys, ph.lease, ph.k, false);
        NotPrepared(ph.base, ph.lease);
        RollbackExact(ph.base.pool, ph.base.running, w.sys.pool, w.sys.running, ph.lease);
        assert w'.sys == ph.base;
        LeaseAlike(c, ph.base, w.sys, ph.lease, ph.k, false);
      } else if w.phase.Leasing? {
        var ph := w.phase;
        AbortAlike(c, ph.base, w.sys, ph.lease, ph.k, ph.prepared);
      } else {
        UndoAlike(c, w.sys);
      }
      AlikeAccounts(c, w.past, Rows(w.sys), Rows(w'.sys));
    }
  }

  lemma StepAccounts(c: Config, w: World, a: Action, w': World)
    requires c.Valid() && Shape(c, w) && Step(c, w, a, w') && Accounts(c, w.past, Rows(w.sys))
    ensures Accounts(c, w'.past, Rows(w'.sys))
  {
    hide Shape, Accounts, Rows, Cancels;
    if a.CancelRequests? {
      CancelStepAccounts(c, w, a.targets, w');
    } else {
      hide Step;
      if a.AddRequest? || a.ScheduleBatch? {
        RequestAccounts(c, w, a, w');
      } else if a.CommitBatch? || a.CommitShadow? {
        OrdinaryAccounts(c, w, a, w');
      } else if a.CommitBurst? {
        BurstAccounts(c, w, a, w');
      } else if a.PlanCycle? || a.Handoff? || a.AbortCycle? {
        CycleAccounts(c, w, a, w');
      } else {
        CacheStep(c, w, a, w');
      }
    }
  }

  /** Passes over the caches move no request and report nothing. */
  lemma CacheStep(c: Config, w: World, a: Action, w': World)
    requires c.Valid() && Step(c, w, a, w')
    requires a.Forward? || a.Garble? || a.DraftPart? || a.Propose? || a.PrepareWrites? || a.Verify?
    ensures w'.past == w.past && w'.sys == w.sys
  {
    hide Scribble, Ran, DraftPass, Proposed, Verified, Rows, Prepare;
  }

  /** Delivery over every run, through admissions, failures, aborts, cancellations and
      preemptions: at any point each admitted request is in exactly one of three states.
      It is queued and has been told exactly the tokens it has committed; or it finished,
      at its first stopping point and with its last event, and only that one, saying so; or
      it was cancelled, with no finishing event. No event concerns anyone else. */
  lemma {:induction false} RunAccounts(c: Config, run: seq<World>, acts: seq<Action>, n: nat)
    requires c.Valid() && Run(c, run, acts) && n < |run|
    ensures Accounts(c, run[n].past, Rows(run[n].sys))
  {
    hide Shape, Step, Init, Accounts;
    if n == 0 {
      NothingYet(c, run[0]);
    } else {
      RunAccounts(c, run, acts, n - 1);
      RunShape(c, run, acts, n - 1);
      StepAccounts(c, run[n - 1], acts[n - 1], run[n]);
    }
  }

  lemma NothingYet(c: Config, w: World)
    requires c.Valid() && Init(c, w)
    ensures Accounts(c, w.past, Rows(w.sys))
  {
  }

  /** The three states exclude each other. */
  lemma OneState(c: Config, s: Row, past: History, q: seq<Row>)
    ensures !(Active(c, s, past, q) && Completed(c, s, past, q))
    ensures !(Active(c, s, past, q) && Dropped(c, s, past, q))
    ensures !(Completed(c, s, past, q) && Dropped(c, s, past, q))
  {
    hide RunsThrough, Stops, Mine;
  }
}
