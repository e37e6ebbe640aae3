/** The synchronous stream session: it owns the engine, hands out one event at a time, and
    takes an engine step only when it has none left. */
module Stream {
  import opened Types
  import opened Scheduling
  import opened States
  import opened Commit
  import opened Delivery
  import opened Drain
  import opened Dispatch
  import opened Serving

  function IdSet(q: seq<Row>): set<nat> { set s | s in q :: s.id }

  function FinishedIds(ev: seq<Event>): set<nat> { set e | e in ev && e.finished :: e.id }

  /** A finishing event is the last one of a request that is no longer live. */
  ghost predicate Final(ev: seq<Event>, live: set<nat>) {
    forall i :: 0 <= i < |ev| && ev[i].finished ==>
      ev[i].id !in live && forall j :: i < j < |ev| ==> ev[j].id != ev[i].id
  }

  // ----- what one delivery says about ids -----

  lemma MineAt(id: nat, ev: seq<Event>, i: nat)
    requires i < |ev| && ev[i].id == id
    ensures Mine(id, ev) == Mine(id, ev[..i]) + [ev[i]] + Mine(id, ev[i + 1..])
  {
    assert ev == ev[..i] + ([ev[i]] + ev[i + 1..]);
    MineConcat(id, ev[..i], [ev[i]] + ev[i + 1..]);
    MineConcat(id, [ev[i]], ev[i + 1..]);
    assert Mine(id, [ev[i]]) == [ev[i]] by { assert [ev[i]][1..] == []; }
  }

  lemma {:induction false} MineSome(id: nat, ev: seq<Event>, e: Event)
    requires e in ev && e.id == id
    ensures e in Mine(id, ev)
  {
    if ev[0] != e { MineSome(id, ev[1..], e); }
  }

  /** A request that goes on has no finishing event. */
  lemma OpenNever(id: nat, ev: seq<Event>, i: nat)
    requires Open(Mine(id, ev)) && i < |ev| && ev[i].id == id
    ensures !ev[i].finished
  {
    MineAt(id, ev, i);
    var mine := Mine(id, ev);
    assert mine[|Mine(id, ev[..i])|] == ev[i];
  }

  /** A request that ended has one, and it is the last of its events. */
  lemma ClosedLast(id: nat, ev: seq<Event>, i: nat)
    requires Closed(Mine(id, ev)) && i < |ev| && ev[i].id == id && ev[i].finished
    ensures forall j :: i < j < |ev| ==> ev[j].id != id
  {
    MineAt(id, ev, i);
    var mine, a, b := Mine(id, ev), Mine(id, ev[..i]), Mine(id, ev[i + 1..]);
    assert mine[|a|] == ev[i];
    assert b == [];
    forall j | i < j < |ev| ensures ev[j].id != id {
      if ev[j].id == id {
        assert ev[i + 1..][j - i - 1] == ev[j];
        MineSome(id, ev[i + 1..], ev[j]);
      }
    }
  }

  lemma {:induction false} MineIn(id: nat, ev: seq<Event>, e: Event)
    requires e in Mine(id, ev)
    ensures e in ev && e.id == id
  {
    if ev != [] && !(ev[0].id == id && e == ev[0]) { MineIn(id, ev[1..], e); }
  }

  lemma LiveOrFinished(c: Config, q: seq<Row>, ev: seq<Event>, q': seq<Row>, s: Row)
    requires s in q && Delivers(c, q, ev, q')
    ensures s.id in IdSet(q') + FinishedIds(ev)
    ensures s.id in IdSet(q') ==> Open(Mine(s.id, ev))
    ensures s.id !in IdSet(q') ==> Closed(Mine(s.id, ev))
  {
    hide RunsThrough, Stops, Mine;
    var mine := Mine(s.id, ev);
    assert Goes(c, s, mine, q');
    if s' :| s' in q' && Continues(c, s, mine, s') {
      assert s'.id == s.id && s'.id in IdSet(q');
    } else {
      var e := mine[|mine| - 1];
      assert e in mine;
      MineIn(s.id, ev, e);
      assert s.id !in IdSet(q');
    }
  }

  lemma IdKnown(q: seq<Row>, id: nat)
    ensures id in IdSet(q) <==> Known(id, q)
  {
  }

  /** The ids before a step are those still live after it and those it finished; the events
      of the step belong to them, and a finishing event is final. */
  lemma StepEvents(c: Config, q: seq<Row>, ev: seq<Event>, q': seq<Row>)
    requires Delivers(c, q, ev, q')
    ensures IdSet(q) == IdSet(q') + FinishedIds(ev)
    ensures Final(ev, IdSet(q'))
    ensures forall e :: e in ev ==> e.id in IdSet(q)
  {
    hide Goes;
    forall e | e in ev ensures e.id in IdSet(q) { IdKnown(q, e.id); }
    forall id | id in IdSet(q) ensures id in IdSet(q') + FinishedIds(ev) {
      var s :| s in q && s.id == id;
      LiveOrFinished(c, q, ev, q', s);
    }
    forall id | id in IdSet(q') ensures id in IdSet(q) {
      IdKnown(q', id);
      IdKnown(q, id);
    }
    forall i | 0 <= i < |ev| && ev[i].finished
      ensures ev[i].id !in IdSet(q') && forall j :: i < j < |ev| ==> ev[j].id != ev[i].id
    {
      assert ev[i] in ev;
      var s :| s in q && s.id == ev[i].id;
      LiveOrFinished(c, q, ev, q', s);
      if s.id in IdSet(q') { OpenNever(s.id, ev, i); } else { ClosedLast(s.id, ev, i); }
    }
  }

  // ----- the books of a session -----

  /** Requests as admitted, events delivered and events held back, against the live rows:
      nothing is lost, invented or reordered, and `remaining` are exactly the requests
      whose finishing event is still to be delivered. */
  ghost predicate Books(c: Config, start: seq<Row>, delivered: seq<Event>, pending: seq<Event>, remaining: set<nat>, q: seq<Row>) {
    && Delivers(c, start, delivered + pending, q)
    && remaining == IdSet(q) + FinishedIds(pending)
    && Final(pending, IdSet(q))
    && forall e :: e in pending ==> e.id in remaining
  }

  lemma OpenBooks(c: Config, start: seq<Row>)
    ensures Books(c, start, [], [], IdSet(start), start)
  {
    hide Delivers;
    AlikeSelf(c, start);
    var none: seq<Event> := [];
    assert none + none == none;
  }

  /** An engine step taken when nothing is pending. */
  lemma StepBooks(c: Config, start: seq<Row>, delivered: seq<Event>, remaining: set<nat>, q: seq<Row>, ev: seq<Event>, q': seq<Row>)
    requires Books(c, start, delivered, [], remaining, q) && Delivers(c, q, ev, q')
    ensures Books(c, start, delivered, ev, remaining, q')
    ensures forall e :: e in ev ==> e.id in remaining
  {
    hide Delivers, Final;
    assert delivered + [] == delivered;
    DeliversThen(c, start, delivered, q, ev, q');
    StepEvents(c, q, ev, q');
    assert FinishedIds([]) == {};
  }

  /** One event handed out. */
  lemma PopBooks(c: Config, start: seq<Row>, delivered: seq<Event>, pending: seq<Event>, remaining: set<nat>, q: seq<Row>)
    requires Books(c, start, delivered, pending, remaining, q) && pending != []
    ensures var e := pending[0];
      Books(c, start, delivered + [e], pending[1..], if e.finished then remaining - {e.id} else remaining, q)
  {
    hide Delivers;
    var e, rest := pending[0], pending[1..];
    assert delivered + [e] + rest == delivered + pending;
    assert pending == [e] + rest;
    assert FinishedIds(pending) == FinishedIds([e]) + FinishedIds(rest);
    forall i | 0 <= i < |rest| && rest[i].finished
      ensures rest[i].id !in IdSet(q) && forall j :: i < j < |rest| ==> rest[j].id != rest[i].id
    {
      assert pending[i + 1] == rest[i];
      forall j | i < j < |rest| ensures rest[j].id != rest[i].id { assert pending[j + 1] == rest[j]; }
    }
    if e.finished {
      forall x | x in rest ensures x.id != e.id {
        var j :| 0 <= j < |rest| && rest[j] == x;
        assert pending[j + 1] == x;
      }
      assert e.id !in FinishedIds(rest) && e.id !in IdSet(q);
      assert FinishedIds([e]) == {e.id};
    } else {
      assert FinishedIds([e]) == {};
    }
  }

  /** Nobody remaining and nothing pending: the stream is complete. */
  lemma CloseBooks(c: Config, start: seq<Row>, delivered: seq<Event>, q: seq<Row>)
    requires Books(c, start, delivered, [], {}, q)
    ensures q == [] && Delivers(c, start, delivered, [])
  {
    hide Delivers;
    assert delivered + [] == delivered;
    assert FinishedIds([]) == {};
    assert q != [] ==> q[0].id in IdSet(q);
  }

  /** Somebody remaining and nothing pending: the engine has work. */
  lemma WorkLeft(c: Config, start: seq<Row>, delivered: seq<Event>, remaining: set<nat>, y: Sys)
    requires Books(c, start, delivered, [], remaining, Rows(y)) && remaining != {}
    ensures y.waiting != [] || y.running != []
  {
    hide Delivers;
    assert FinishedIds([]) == {};
  }

  // ----- the session -----

  lemma LiveAreOurs(c: Config, start: seq<Row>, delivered: seq<Event>, pending: seq<Event>, remaining: set<nat>, q: seq<Row>)
    requires Books(c, start, delivered, pending, remaining, q)
    ensures forall s :: s in q ==> s.id in IdSet(start)
  {
    hide Goes, Final;
    forall s | s in q ensures s.id in IdSet(start) { IdKnown(start, s.id); }
  }

  class StreamSession {
    const engine: Engine
    const ids: seq<nat>
    var lease: SessionLease?
    var pending: seq<Event>
    var remaining: set<nat>
    var closed: bool
    ghost const start: seq<Row>       // the requests as they were admitted
    ghost var delivered: seq<Event>

    ghost predicate Valid()
      reads this, engine, engine.scheduler, engine.scheduler.manager, engine.scheduler.waiting, engine.scheduler.running
    {
      && engine.Valid() && ToSet(ids) == IdSet(start)
      && if closed then lease == null && pending == [] && remaining == {}
         else lease != null && engine.session == lease
              && Books(engine.c, start, delivered, pending, remaining, Rows(engine.View()))
    }

    /** Over an engine whose queued requests all belong to this session. */
    constructor (engine: Engine, lease: SessionLease, ids: seq<nat>)
      requires engine.Valid() && engine.session == lease && ToSet(ids) == IdSet(Rows(engine.View()))
      ensures Valid() && this.engine == engine && this.ids == ids && start == Rows(engine.View())
      ensures delivered == pending == [] && !closed && this.lease == lease
    {
      hide Books, Behaves, Idle, Scheduler.Tidy;
      this.engine, this.lease, this.ids := engine, lease, ids;
      pending, remaining, closed := [], ToSet(ids), false;
      start, delivered := Rows(engine.View()), [];
      new;
      OpenBooks(engine.c, start);
    }

    /** Cancel what is left and give the engine back. Closing twice does nothing. */
    method Close()
      requires Valid()
      modifies this`closed, this`pending, this`remaining, this`lease, engine`session
      modifies engine.scheduler`waiting, engine.scheduler`running, engine.scheduler`mid, engine.scheduler.manager, engine.scheduler.Repr
      ensures Valid() && closed
      ensures old(closed) ==> engine.View() == old(engine.View()) && engine.session == old(engine.session)
      ensures !old(closed) ==> engine.session == null && Rows(engine.View()) == []
    {
      hide Books, Behaves, Idle, Scheduler.Tidy;
      if closed { return; }
      ghost var q := Rows(engine.View());
      LiveAreOurs(engine.c, start, delivered, pending, remaining, q);
      closed, pending, remaining := true, [], {};
      engine.Cancel(ToSet(ids));
      NoneLeft(q, Rows(engine.View()), ToSet(ids));
      var ok := engine.Release(lease);
      lease := null;
    }

    /** Step the engine until events are pending or every request is through. The three
        guards of this loop never fire: the engine has work while somebody remains, and no
        event is foreign to the session. */
    method Refill() returns (raised: bool)
      requires Valid() && !closed && pending == []
      modifies this`pending, engine.scheduler`waiting, engine.scheduler`running, engine.scheduler`mid, engine.scheduler.manager,
        engine.scheduler.Repr
      ensures Valid() && !raised && (pending == [] ==> remaining == {})
      ensures pending != [] ==> Lower(engine.View(), old(engine.View()))
    {
      hide Books, Behaves, Idle, Scheduler.Tidy, Scheduler.View, Remains, Uncached, Lower;
      raised := false;
      ghost var y0 := engine.View();
      while pending == [] && remaining != {}
        invariant Valid() && !raised
        invariant (engine.View() == y0 && pending == []) || Lower(engine.View(), y0)
        decreases Remains(Rows(engine.View())), Uncached(engine.View()), if pending == [] then 1 else 0
      {
        ghost var y := engine.View();
        WorkLeft(engine.c, start, delivered, remaining, y);
        var finished := engine.IsFinished();
        if finished { return true; }
        raised := StepOnce();
        LowerIs(y, engine.View());
        if y != y0 { LowerTrans(y0, y, engine.View()); }
      }
    }

    /** One engine step for a session that has nothing pending. */
    method StepOnce() returns (foreign: bool)
      requires Valid() && !closed && pending == [] && remaining != {}
      modifies this`pending, engine.scheduler`waiting, engine.scheduler`running, engine.scheduler`mid, engine.scheduler.manager,
        engine.scheduler.Repr
      ensures Valid() && !foreign && Lower(engine.View(), old(engine.View()))
    {
      hide Books, Behaves, Idle, Scheduler.Tidy, Scheduler.View, Lower, EngineStep, StepOk, Delivers;
      ghost var y := engine.View();
      WorkLeft(engine.c, start, delivered, remaining, y);
      var events := engine.Step();
      StepParts(engine.c, y, engine.View(), events);
      StepBooks(engine.c, start, delivered, remaining, Rows(y), events, Rows(engine.View()));
      foreign := exists i | 0 <= i < |events| :: events[i].id !in remaining;
      pending := pending + events;
      assert pending == events;
    }

    /** The next event, or None at the end of the stream. An engine step is taken only when
        no event is pending; the session closes itself exactly when everything has been
        delivered. */
    method Next() returns (e: Option<Event>, raised: bool)
      requires Valid()
      modifies this`closed, this`pending, this`remaining, this`lease, this`delivered, engine`session
      modifies engine.scheduler`waiting, engine.scheduler`running, engine.scheduler`mid, engine.scheduler.manager, engine.scheduler.Repr
      ensures Valid() && !raised
      ensures old(closed) ==> e == None && closed && engine.View() == old(engine.View()) && engine.session == old(engine.session)
      ensures delivered == old(delivered) + (if e.Some? then [e.value] else [])
      ensures e == None ==> closed
      ensures old(pending) != [] ==> e == Some(old(pending)[0])
      ensures old(pending) != [] && !closed ==> pending == old(pending)[1..] && engine.View() == old(engine.View())
      ensures closed && !old(closed) ==> Delivers(engine.c, start, delivered, []) && engine.session == null
      ensures old(pending) == [] && !closed ==> Lower(engine.View(), old(engine.View()))
    {
      hide Books, Behaves, Idle, Scheduler.Tidy, Delivers, Lower;
      raised := false;
      assert delivered + [] == delivered;
      if closed { return None, false; }
      if pending == [] { raised := Refill(); }
      if pending == [] {
        Finish();
        return None, raised;
      }
      var head := Pop();
      e := Some(head);
      if remaining == {} && pending == [] { Finish(); }
    }

    /** Read the stream to its end. It does end, and then each request was delivered up to
        its first stopping point, and the engine is free for the next session. */
    method Collect() returns (events: seq<Event>)
      requires Valid() && !closed && delivered == []
      modifies this`closed, this`pending, this`remaining, this`lease, this`delivered, engine`session
      modifies engine.scheduler`waiting, engine.scheduler`running, engine.scheduler`mid, engine.scheduler.manager, engine.scheduler.Repr
      ensures Valid() && closed && events == delivered && engine.session == null
      ensures Delivers(engine.c, start, events, [])
    {
      hide Books, Behaves, Idle, Scheduler.Tidy, Delivers, Lower, Remains, Uncached;
      events := [];
      while !closed
        invariant Valid() && events == delivered
        invariant closed ==> engine.session == null && Delivers(engine.c, start, events, [])
        decreases if closed then 0 else 1, Remains(Rows(engine.View())), Uncached(engine.View()), |pending|
      {
        ghost var y, held := engine.View(), pending;
        var e, raised := Next();
        if e.Some? { events := events + [e.value]; }
        if !closed && held == [] { LowerIs(y, engine.View()); }
      }
    }

    /** Hand out one pending event. */
    method Pop() returns (e: Event)
      requires Valid() && !closed && pending != []
      modifies this`pending, this`remaining, this`delivered
      ensures Valid() && e == old(pending)[0] && pending == old(pending)[1..] && delivered == old(delivered) + [e]
    {
      hide Books, Behaves, Idle, Scheduler.Tidy;
      PopBooks(engine.c, start, delivered, pending, remaining, Rows(engine.View()));
      e := pending[0];
      pending := pending[1..];
      delivered := delivered + [e];
      if e.finished { remaining := remaining - {e.id}; }
    }

    /** Close a session that has delivered everything. */
    method Finish()
      requires Valid() && !closed && pending == [] && remaining == {}
      modifies this`closed, this`pending, this`remaining, this`lease, engine`session
      modifies engine.scheduler`waiting, engine.scheduler`running, engine.scheduler`mid, engine.scheduler.manager, engine.scheduler.Repr
      ensures Valid() && closed && engine.session == null && Delivers(engine.c, start, delivered, [])
    {
      hide Books, Behaves, Idle, Scheduler.Tidy, Delivers;
      CloseBooks(engine.c, start, delivered, Rows(engine.View()));
      Close();
    }
  }

  lemma LowerIs(y: Sys, z: Sys)
    requires Lower(z, y)
    ensures Remains(Rows(z)) < Remains(Rows(y)) || (Remains(Rows(z)) == Remains(Rows(y)) && Uncached(z) < Uncached(y))
  {
  }

  lemma LowerTrans(x: Sys, y: Sys, z: Sys)
    requires Lower(y, x) && Lower(z, y)
    ensures Lower(z, x)
  {
    hide Remains, Uncached, Rows;
  }

  /** Start a stream: take the engine over and admit the whole batch. On any refusal the
      engine is given back with nothing queued. */
  method OpenStream(engine: Engine, prompts: seq<Prompt>) returns (s: StreamSession?)
    requires engine.Valid() && forall p :: p in prompts ==> p.maxTokens >= 1
    modifies engine`session, engine`nextId, engine.scheduler, engine.scheduler.manager, engine.scheduler.Repr
    ensures engine.Valid()
    ensures s != null <==>
      old(engine.session) == null && old(Rows(engine.View())) == [] && BatchAdmissible(engine.c, prompts)
    ensures old(engine.session) != null || old(Rows(engine.View())) != [] ==>
      s == null && engine.session == old(engine.session) && engine.View() == old(engine.View())
    ensures s == null && old(engine.session) == null && old(Rows(engine.View())) == [] ==> engine.session == null && Rows(engine.View()) == []
    ensures s != null ==>
      && fresh(s) && s.Valid() && s.engine == engine && s.start == Wanted(old(engine.nextId), prompts)
      && s.delivered == [] && (s.closed <==> prompts == [])
  {
    hide Behaves, Idle, Scheduler.Tidy, Books, BatchAdmissible;
    var lease := engine.Acquire();
    if lease == null { return null; }
    ghost var id := engine.nextId;
    var from := engine.nextId;
    var ok := engine.AdmitBatch(prompts);
    if !ok {
      var given := engine.Release(lease);
      return null;
    }
    var ids := seq(|prompts|, i requires i >= 0 => from + i);
    WantedIds(id, prompts, ids);
    s := new StreamSession(engine, lease, ids);
    if prompts == [] { s.Close(); }
  }

  lemma WantedIds(id: nat, prompts: seq<Prompt>, ids: seq<nat>)
    requires |ids| == |prompts| && forall i :: 0 <= i < |ids| ==> ids[i] == id + i
    ensures ToSet(ids) == IdSet(Wanted(id, prompts))
  {
    var q := Wanted(id, prompts);
    forall x | x in ToSet(ids) ensures x in IdSet(q) {
      var i :| 0 <= i < |ids| && ids[i] == x;
      assert q[i] in q && q[i].id == x;
    }
    forall x | x in IdSet(q) ensures x in ToSet(ids) {
      var i :| 0 <= i < |q| && q[i].id == x;
      assert ids[i] == x;
    }
  }

  lemma WantedAnswers(c: Config, id: nat, start: seq<Row>, prompts: seq<Prompt>, ev: seq<Event>)
    requires start == Wanted(id, prompts) && Delivers(c, start, ev, []) && forall p :: p in prompts ==> p.maxTokens >= 1
    ensures forall s :: s in start ==> Answer(c, s, Mine(s.id, ev))
  {
    hide Delivers, Answer;
    forall s | s in start ensures |s.toks| < s.prompt + s.maxTokens {
      var i :| 0 <= i < |start| && start[i] == s;
      assert prompts[i] in prompts;
    }
    DrainedAnswers(c, start, ev);
  }

  /** Run a batch to its end: every request of it ends up among the finished ones, and has
      been told a complete answer. None exactly when the engine is taken or the batch cannot
      be admitted. */
  method Generate(engine: Engine, prompts: seq<Prompt>) returns (events: Option<seq<Event>>)
    requires engine.Valid() && forall p :: p in prompts ==> p.maxTokens >= 1
    modifies engine`session, engine`nextId, engine.scheduler, engine.scheduler.manager, engine.scheduler.Repr
    ensures engine.Valid() && (old(engine.session) == null ==> engine.session == null)
    ensures events.Some? <==>
      old(engine.session) == null && old(Rows(engine.View())) == [] && BatchAdmissible(engine.c, prompts)
    ensures events.Some? ==>
      var start := Wanted(old(engine.nextId), prompts);
      && Rows(engine.View()) == [] && Delivers(engine.c, start, events.value, [])
      && FinishedIds(events.value) == IdSet(start)
      && forall s :: s in start ==> Answer(engine.c, s, Mine(s.id, events.value))
  {
    hide Behaves, Idle, Scheduler.Tidy, Delivers, BatchAdmissible, Answer, Mine;
    var lease := engine.Acquire();
    if lease == null { return None; }
    ghost var id, start := engine.nextId, Wanted(engine.nextId, prompts);
    var ok := engine.AdmitBatch(prompts);
    if ok {
      assert Rows(engine.View()) == start;
      var ev := engine.RunToEnd();
      StepEvents(engine.c, start, ev, []);
      WantedAnswers(engine.c, id, start, prompts, ev);
      assert IdSet([]) == {};
      events := Some(ev);
    } else {
      events := None;
    }
    var given := engine.Release(lease);
  }
}
