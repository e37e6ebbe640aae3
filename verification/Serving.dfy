/** The engine as an object: the driver of one step over the scheduler, admission, and
    the ownership of the engine by one session at a time. */
module Serving {
  import opened Arith
  import opened Types
  import opened Queues
  import opened Scheduling
  import opened States
  import opened Commit
  import opened Leases
  import opened Speculation
  import opened Transactions
  import opened Requests
  import opened Delivery
  import opened Protocol
  import opened Drain
  import opened Manager
  import opened Dispatch

  /** What a session holds while it owns the engine. */
  class SessionLease {
    constructor () {}
  }

  /** The model returns one in-vocabulary token per scheduled row, whatever the state. */
  ghost predicate Behaves(c: Config, model: Sys -> Choice)
    requires c.Valid()
  {
    forall y :: Idle(c, y) ==> Proper(c, y, model(y))
  }

  /** A request as a caller submits it. */
  datatype Prompt = Prompt(tokens: seq<Token>, maxTokens: nat, ignoreEos: bool)

  /** A batch an empty engine can take: no more requests than slots, each admissible. */
  predicate BatchAdmissible(c: Config, prompts: seq<Prompt>) {
    |prompts| <= c.maxSeqs && forall k :: 0 <= k < |prompts| ==> Admissible(c, prompts[k].tokens, prompts[k].maxTokens)
  }

  /** The requests a batch becomes, with consecutive ids. */
  function Wanted(id: nat, prompts: seq<Prompt>): (q: seq<Row>)
    ensures |q| == |prompts|
  {
    seq(|prompts|, i requires 0 <= i < |prompts| =>
      NewRow(id + i, prompts[i].tokens, prompts[i].maxTokens, prompts[i].ignoreEos))
  }

  lemma WantedNext(id: nat, prompts: seq<Prompt>, i: nat)
    requires i < |prompts|
    ensures Wanted(id, prompts[..i + 1]) ==
      Wanted(id, prompts[..i]) + [NewRow(id + i, prompts[i].tokens, prompts[i].maxTokens, prompts[i].ignoreEos)]
  {
  }

  lemma AdmittedIs(c: Config, y: Sys, id: nat, p: Prompt)
    requires c.Valid() && p.maxTokens >= 1 && Admit(c, y, id, p.tokens, p.maxTokens, p.ignoreEos).Admitted?
    ensures Admit(c, y, id, p.tokens, p.maxTokens, p.ignoreEos).sys ==
      y.(waiting := y.waiting + [NewRow(id, p.tokens, p.maxTokens, p.ignoreEos)])
  {
  }

  lemma NoneLeft(q: seq<Row>, q': seq<Row>, targets: set<nat>)
    requires (forall s :: s in q ==> s.id in targets) && forall s :: s in q' <==> s in q && s.id !in targets
    ensures q' == []
  {
    if |q'| > 0 { SomeHead(q'); }
  }

  lemma SomeHead(q: seq<Row>)
    requires |q| > 0
    ensures exists s :: s in q
  {
    assert q[0] in q;
  }

  datatype Entry = Entered(s: Sequence) | TurnedAway(error: AdmitError)

  class Engine {
    const c: Config
    const scheduler: Scheduler
    const model: Sys -> Choice        // the forward passes: any tokens, chosen per state
    var session: SessionLease?
    var nextId: nat

    function View(): Sys
      reads scheduler, scheduler.manager, scheduler.waiting, scheduler.running
    {
      scheduler.View()
    }

    ghost predicate Valid()
      reads this, scheduler, scheduler.manager, scheduler.waiting, scheduler.running
    {
      && c.Valid() && scheduler.c == c && scheduler.Tidy([]) && Idle(c, View()) && scheduler.manager.lease == None
      && (forall s :: s in Rows(View()) ==> s.id < nextId)
      && Behaves(c, model)
    }

    constructor (c: Config, model: Sys -> Choice)
      requires c.Valid() && Behaves(c, model)
      ensures Valid() && this.c == c && fresh(scheduler) && fresh(scheduler.manager) && session == null
      ensures View().waiting == [] && View().running == []
    {
      this.c, this.model := c, model;
      scheduler := new Scheduler(c);
      session, nextId := null, 0;
      new;
      EmptyEngine(c, scheduler.View());
    }

    method IsFinished() returns (b: bool)
      ensures b <==> View().waiting == [] && View().running == []
    {
      b := scheduler.waiting == [] && scheduler.running == [];
    }

    // ----- sessions -----

    /** Take the engine over. Refused while a session owns it or requests are queued. */
    method Acquire() returns (lease: SessionLease?)
      requires Valid()
      modifies this`session
      ensures Valid()
      ensures lease == null <==> old(session) != null || View().waiting != [] || View().running != []
      ensures session == if lease == null then old(session) else lease
      ensures lease != null ==> fresh(lease)
    {
      hide Idle, Separate, Behaves, Rows, Scheduler.Tidy;
      if session != null { return null; }
      var idle := IsFinished();
      if !idle { return null; }
      lease := new SessionLease();
      session := lease;
    }

    /** Give the engine back; only its owner can. */
    method Release(lease: SessionLease) returns (ok: bool)
      requires Valid()
      modifies this`session
      ensures Valid()
      ensures ok <==> old(session) == null || old(session) == lease
      ensures session == if ok then null else old(session)
    {
      hide Idle, Separate, Behaves, Rows, Scheduler.Tidy;
      ok := session == null || session == lease;
      if ok { session := null; }
    }

    // ----- admission and cancellation -----

    /** Admission bounds, in the order they are checked; a refused request changes nothing
        and uses up no id. */
    method AdmitRequest(p: Prompt) returns (r: Entry)
      requires Valid() && p.maxTokens >= 1
      modifies this`nextId, scheduler`waiting, scheduler`Repr
      ensures Valid()
      ensures r.Entered? <==> |old(View()).waiting| + |old(View()).running| < c.maxSeqs && Admissible(c, p.tokens, p.maxTokens)
      ensures match Admit(c, old(View()), old(nextId), p.tokens, p.maxTokens, p.ignoreEos)
        case Admitted(y) => r.Entered? && View() == y && nextId == old(nextId) + 1
        case AdmitRefused(e) => r == TurnedAway(e) && View() == old(View()) && nextId == old(nextId)
      ensures r.Entered? ==> fresh(r.s) && scheduler.Repr == old(scheduler.Repr) + {r.s}
      ensures r.TurnedAway? ==> scheduler.Repr == old(scheduler.Repr)
    {
      hide Idle, Separate, Behaves, Admit, Admissible, Rows;
      AdmitExact(c, View(), nextId, p.tokens, p.maxTokens, p.ignoreEos);
      var e := CheckRequest(p);
      if e.Some? { return TurnedAway(e.value); }
      var s := Enter(p);
      r := Entered(s);
    }

    /** Queue an admitted request under the next id. */
    method Enter(p: Prompt) returns (s: Sequence)
      requires Valid() && p.maxTokens >= 1 && p.tokens != [] && |scheduler.waiting| + |scheduler.running| < c.maxSeqs
      requires Admit(c, View(), nextId, p.tokens, p.maxTokens, p.ignoreEos) ==
        Admitted(View().(waiting := View().waiting + [NewRow(nextId, p.tokens, p.maxTokens, p.ignoreEos)]))
      modifies this`nextId, scheduler`waiting, scheduler`Repr
      ensures Valid() && fresh(s) && scheduler.Repr == old(scheduler.Repr) + {s} && nextId == old(nextId) + 1
      ensures View() == old(View()).(waiting := old(View()).waiting + [NewRow(old(nextId), p.tokens, p.maxTokens, p.ignoreEos)])
    {
      hide Idle, Separate, Behaves, Admit, Rows, Scheduler.Tidy, Scheduler.View;
      ghost var y := View();
      IdleAdmits(c, y, nextId, p.tokens, p.maxTokens, p.ignoreEos);
      s := new Sequence(nextId, p.tokens, p.maxTokens, p.ignoreEos);
      assert View() == y;
      var ok := scheduler.Add(s);
      nextId := nextId + 1;
    }

    /** The admission checks alone. */
    method CheckRequest(p: Prompt) returns (e: Option<AdmitError>)
      requires c.Valid() && scheduler.c == c && p.maxTokens >= 1
      ensures e.Some? ==> Admit(c, View(), nextId, p.tokens, p.maxTokens, p.ignoreEos) == AdmitRefused(e.value)
      ensures e.None? ==> p.tokens != [] && |scheduler.waiting| + |scheduler.running| < c.maxSeqs
      ensures e.None? ==>
        (Admit(c, View(), nextId, p.tokens, p.maxTokens, p.ignoreEos) ==
         Admitted(View().(waiting := View().waiting + [NewRow(nextId, p.tokens, p.maxTokens, p.ignoreEos)])))
    {
      hide CeilDiv, InVocabulary;
      if |scheduler.waiting| + |scheduler.running| >= c.maxSeqs { return Some(NoSlot); }
      if p.tokens == [] { return Some(EmptyPrompt); }
      var i := 0;
      while i < |p.tokens|
        invariant i <= |p.tokens| && forall k :: 0 <= k < i ==> InVocabulary(c, p.tokens[k])
      {
        if !InVocabulary(c, p.tokens[i]) { return Some(TokenInvalid); }
        i := i + 1;
      }
      if |p.tokens| + p.maxTokens - 1 > c.maxModelLen { return Some(TooLong); }
      if CeilDiv(|p.tokens| + p.maxTokens - 1, c.blockSize) > c.numBlocks { return Some(TooManyBlocks); }
      e := None;
    }

    /** Admit a whole batch into an empty engine, or nothing: exactly when each of its
        requests could be admitted and there are slots for all. */
    method AdmitBatch(prompts: seq<Prompt>) returns (ok: bool)
      requires Valid() && View().waiting == [] && View().running == [] && forall p :: p in prompts ==> p.maxTokens >= 1
      modifies this`nextId, scheduler`waiting, scheduler`running, scheduler`mid, scheduler`Repr, scheduler.manager, scheduler.Repr
      ensures Valid() && fresh(scheduler.Repr - old(scheduler.Repr))
      ensures ok <==> BatchAdmissible(c, prompts)
      ensures ok ==> View() == old(View()).(waiting := Wanted(old(nextId), prompts))
      ensures !ok ==> Rows(View()) == []
    {
      hide Idle, Behaves, Scheduler.Tidy, Scheduler.View, Admit, Admissible;
      ghost var y, id := View(), nextId;
      if |prompts| > c.maxSeqs { return false; }
      var i := 0;
      while i < |prompts|
        invariant i <= |prompts| && Valid() && nextId == id + i && fresh(scheduler.Repr - old(scheduler.Repr))
        invariant View() == y.(waiting := Wanted(id, prompts[..i]))
        invariant forall k :: 0 <= k < i ==> Admissible(c, prompts[k].tokens, prompts[k].maxTokens)
      {
        WantedNext(id, prompts, i);
        var r := AdmitRequest(prompts[i]);
        if r.TurnedAway? {
          EmptyQueues();
          return false;
        }
        AdmittedIs(c, y.(waiting := Wanted(id, prompts[..i])), id + i, prompts[i]);
        i := i + 1;
      }
      assert prompts[..i] == prompts;
      ok := true;
    }

    /** Cancel everything queued. */
    method EmptyQueues()
      requires Valid()
      modifies scheduler`waiting, scheduler`running, scheduler`mid, scheduler.manager, scheduler.Repr
      ensures Valid() && Rows(View()) == []
    {
      hide Idle, Behaves, Scheduler.Tidy;
      ghost var q := Rows(View());
      var targets := LiveIds();
      Cancel(targets);
      NoneLeft(q, Rows(View()), targets);
    }

    method LiveIds() returns (ids: set<nat>)
      ensures ids == set s | s in Rows(View()) :: s.id
    {
      var q := Rows(scheduler.View());
      ids := set s | s in q :: s.id;
    }

    /** Cancel the named requests between steps. */
    method Cancel(targets: set<nat>)
      requires Valid()
      modifies scheduler`waiting, scheduler`running, scheduler`mid, scheduler.manager, scheduler.Repr
      ensures Valid()
      ensures forall s :: s in Rows(View()) <==> s in old(Rows(View())) && s.id !in targets
    {
      hide Idle, Separate, Behaves, Common, NamesQueued, Requests.Cancel;
      ghost var y := View();
      IdleCommon(c, y);
      CancelsNamed(c, y, targets);
      var ids := scheduler.Cancel(targets, y, 0, false);
    }

    // ----- one step -----

    /** Verify a leased burst and commit it. */
    method Verify(ch: Choice, k: nat, ghost x: Sys) returns (r: Option<seq<Event>>)
      requires c.Valid() && scheduler.c == c && scheduler.Tidy([]) && scheduler.manager.lease.Some? && ch.Verified?
      requires Leased(c, x, View(), scheduler.manager.lease.value, k, false)
      modifies scheduler`running, scheduler.manager, scheduler.Repr
      ensures match Speculation.CommitSpeculative(c, old(View()), Prepare(old(scheduler.manager.lease).value), k, ch.results)
        case CommitOk(y, ev) => r == Some(ev) && View() == y && scheduler.manager.lease == None && scheduler.Tidy([])
        case CommitFailed(_) => r == None
    {
      hide Speculation.CommitSpeculative, Prepare, Leased, Separate, Live;
      PrepareKeeps(c, x, View(), scheduler.manager.lease.value, k);
      var ok := scheduler.PrepareWrites();
      r := scheduler.CommitSpeculative(k, ch.results, x, true);
    }

    /** Discard the proposals and commit the ordinary tokens with the staged coverage. */
    method Shadow(ch: Choice, ghost x: Sys, ghost k: nat) returns (r: Option<seq<Event>>)
      requires c.Valid() && scheduler.c == c && scheduler.Tidy([]) && scheduler.manager.lease.Some?
      requires Leased(c, x, View(), scheduler.manager.lease.value, k, false)
      modifies scheduler`running, scheduler.manager, scheduler.Repr
      ensures Leases.Rollback(old(View()).pool, old(View()).running, old(scheduler.manager.lease).value) == Settled(x.pool, x.running)
      ensures match Commit.Postprocess(c, x, ch.tokens, StagedFor(x.running))
        case PostOk(y, ev) => r == Some(ev) && View() == y && scheduler.manager.lease == None && scheduler.Tidy([])
        case PostErr(_) => r == None
    {
      hide Commit.Postprocess, Leased, Separate, Leases.Rollback, StagedFor, States.Ready, PureDecode;
      ShadowReady(c, x, View(), scheduler.manager.lease.value, k);
      var ok := scheduler.Handoff();
      assert View() == x;
      r := scheduler.Postprocess(ch.tokens, StagedFor(Views(scheduler.running)), Ids(x.running));
    }

    /** The speculative half of a step, from a pure decode batch. */
    method Cycle(ch: Choice) returns (r: Option<seq<Event>>)
      requires c.Valid() && scheduler.c == c && scheduler.Tidy([]) && scheduler.manager.lease == None
      requires PureDecode(c, View()) && !ch.Plain?
      modifies scheduler`running, scheduler.manager, scheduler.Repr
      ensures match SpeculativeStep(c, old(View()), ch)
        case Made(y, ev) => r == Some(ev) && View() == y && scheduler.manager.lease == None && scheduler.Tidy([])
        case Raised => r == None
    {
      hide PureDecode, States.Ready, PlanSpeculative, Commit.Postprocess, Speculation.CommitSpeculative, Leases.Rollback,
           Prepare, Leased, Separate, StagedFor;
      ghost var x := View();
      PlanLeases(c, x, ch.routeCap, ch.certified);
      PureReady(c, x);
      var k, failed := scheduler.Plan(ch.routeCap, ch.certified);
      assert !failed;
      if k == 0 {
        r := scheduler.Postprocess(ch.tokens, map[], Ids(x.running));
      } else if ch.Verified? {
        r := Verify(ch, k, x);
      } else {
        r := Shadow(ch, x, k);
      }
    }

    /** One engine step with pending work: schedule, then an ordinary commit, a verified
        burst, or a shadow cycle with an ordinary commit. It never fails. */
    method Step() returns (events: seq<Event>)
      requires Valid() && (View().waiting != [] || View().running != [])
      modifies scheduler`waiting, scheduler`running, scheduler`mid, scheduler.manager, scheduler.Repr
      ensures Valid()
      ensures EngineStep(c, old(View()), model(old(View()))) == Made(View(), events)
      ensures StepOk(c, old(View()), Made(View(), events))
    {
      hide Idle, States.Ready, PureDecode, Scheduling.Schedule, Commit.Postprocess, SpeculativeStep, Separate, StepOk, Proper;
      ghost var y := View();
      var ch := model(scheduler.View());
      ModelProper(c, model, y);
      StepDrains(c, y, ch);
      StepMade(c, y, EngineStep(c, y, ch));
      ScheduledPure(c, y);
      var batch, prefill := scheduler.Schedule();
      var r;
      if prefill || ch.Plain? {
        r := scheduler.Postprocess(ch.tokens, map[], IdsOf(batch));
      } else {
        r := Cycle(ch);
      }
      events := r.value;
      StepIds(c, y, Made(View(), events));
    }

    /** Step until no request is queued: every one of them is delivered up to its first
        stopping point. */
    method RunToEnd() returns (events: seq<Event>)
      requires Valid()
      modifies scheduler`waiting, scheduler`running, scheduler`mid, scheduler.manager, scheduler.Repr
      ensures Valid() && View().waiting == [] && View().running == []
      ensures Delivers(c, old(Rows(View())), events, [])
    {
      hide Idle, Separate, Behaves, EngineStep, Delivers, StepOk, Remains, Uncached;
      ghost var q := Rows(View());
      AlikeSelf(c, q);
      events := [];
      var done := IsFinished();
      while !done
        invariant Valid() && (done <==> View().waiting == [] && View().running == [])
        invariant Delivers(c, q, events, Rows(View()))
        decreases Remains(Rows(View())), Uncached(View()), if done then 0 else 1
      {
        events, done := StepOn(q, events);
      }
      EmptyRows(View());
    }

    /** One more step of a drain; the measure goes down. */
    method StepOn(ghost q: seq<Row>, events: seq<Event>) returns (events': seq<Event>, done: bool)
      requires Valid() && (View().waiting != [] || View().running != []) && Delivers(c, q, events, Rows(View()))
      modifies scheduler`waiting, scheduler`running, scheduler`mid, scheduler.manager, scheduler.Repr
      ensures Valid() && (done <==> View().waiting == [] && View().running == [])
      ensures Delivers(c, q, events', Rows(View())) && Lower(View(), old(View()))
    {
      hide Idle, Separate, Behaves, EngineStep, Delivers, StepOk, Lower;
      ghost var y := View();
      var more := Step();
      StepParts(c, y, View(), more);
      DeliversThen(c, q, events, Rows(y), more, Rows(View()));
      events' := events + more;
      done := IsFinished();
    }
  }

  lemma EmptyEngine(c: Config, y: Sys)
    requires c.Valid() && y == Sys(FreshPool(c), [], [], None)
    ensures Idle(c, y) && Rows(y) == []
  {
    var w := World(y, map[], map[], Free, History([], {}, []));
    InitInv(c, w);
  }

  /** Admission keeps the engine between steps, and the new id is the largest. */
  lemma IdleAdmits(c: Config, y: Sys, id: nat, tokens: seq<Token>, maxTokens: nat, ignoreEos: bool)
    requires c.Valid() && Idle(c, y) && maxTokens >= 1 && forall s :: s in Rows(y) ==> s.id < id
    requires Admit(c, y, id, tokens, maxTokens, ignoreEos).Admitted?
    ensures var z := Admit(c, y, id, tokens, maxTokens, ignoreEos).sys;
      Idle(c, z) && forall s :: s in Rows(z) ==> s.id < id + 1
  {
    hide Idle, CeilDiv, InVocabulary;
    AdmitKeeps(c, y, id, tokens, maxTokens, ignoreEos);
  }

  lemma CancelsNamed(c: Config, y: Sys, targets: set<nat>)
    requires c.Valid() && Idle(c, y)
    ensures !NamesQueued(y, targets) ==> forall s :: s in Rows(y) ==> s.id !in targets
    ensures var r := Requests.Cancel(y, targets);
      r.CancelOk? && Idle(c, r.sys) && forall s :: s in Rows(r.sys) <==> s in Rows(y) && s.id !in targets
  {
    hide Idle, Requests.Cancel, Common;
    IdleCommon(c, y);
    CancelKeeps(c, y, targets);
    UnnamedIn(y.waiting, targets);
    UnnamedIn(y.running, targets);
  }

  lemma StepParts(c: Config, y: Sys, z: Sys, ev: seq<Event>)
    requires c.Valid() && StepOk(c, y, Made(z, ev))
    ensures Delivers(c, Rows(y), ev, Rows(z)) && Lower(z, y)
  {
    hide Delivers, Idle;
  }

  lemma ModelProper(c: Config, model: Sys -> Choice, y: Sys)
    requires c.Valid() && Behaves(c, model) && Idle(c, y)
    ensures Proper(c, y, model(y))
  {
  }

  lemma StepMade(c: Config, y: Sys, r: Stepped)
    requires c.Valid() && StepOk(c, y, r)
    ensures r.Made?
  {
  }

  /** A step admits nobody. */
  lemma StepIds(c: Config, y: Sys, r: Stepped)
    requires c.Valid() && StepOk(c, y, r)
    ensures Idle(c, r.sys) && forall s :: s in Rows(r.sys) ==> Known(s.id, Rows(y))
  {
    hide Idle, Lower, Goes;
  }

  lemma PlanLeases(c: Config, x: Sys, routeCap: nat, certified: bool)
    requires c.Valid() && PureDecode(c, x)
    ensures var p := PlanSpeculative(c, x, routeCap, certified);
      && !p.PlanFailed?
      && (p.Speculate? ==> p.k >= 1 && Leased(c, x, x.(pool := p.pool, running := p.rows), p.lease, p.k, false))
  {
    hide PureDecode, Leased, PlanSpeculative, LeaseOf;
    PlanKeeps(c, x, routeCap, certified);
    var p := PlanSpeculative(c, x, routeCap, certified);
    if p.Speculate? {
      assert x.(pool := p.pool, running := p.rows) == Sys(p.pool, x.waiting, p.rows, x.mid);
      LeasedParts(c, x, x.(pool := p.pool, running := p.rows), p.lease, p.k, false);
    }
  }

  lemma ShadowReady(c: Config, x: Sys, y: Sys, lease: Lease, k: nat)
    requires c.Valid() && Leased(c, x, y, lease, k, false)
    ensures Leases.Rollback(y.pool, y.running, lease) == Settled(x.pool, x.running)
    ensures y.waiting == x.waiting && y.mid == x.mid && States.Ready(c, x, Ids(x.running))
  {
    hide Leased, PureDecode, LeaseOf, Leases.Rollback, States.Ready;
    LeasedParts(c, x, y, lease, k, false);
    NotPrepared(x, lease);
    RollbackExact(x.pool, x.running, y.pool, y.running, lease);
    PureReady(c, x);
  }
}
