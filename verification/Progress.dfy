/** Scheduling never gets stuck: on every idle state with pending work it fires
    none of its error branches, schedules at least one row, and keeps every
    invariant of the allocator and the queues. */
module Progress {
  import opened Arith
  import opened Types
  import opened Pools
  import opened Allocator
  import opened Queues
  import opened Evolution
  import opened Scheduling
  import opened States

  // ----- making room for one decoding row -----

  /** The partial request is reclaimed: it leaves the head and requeues last. */
  lemma ReclaimPartial(c: Config, y: Sys, extra: seq<Row>)
    requires c.Valid() && Common(c, y, extra) && y.mid.Some? && NoChunk(y)
    ensures var y0 := y.(waiting := y.waiting[1..]);
      var r := Preempt(y0, y.waiting[0]);
      && r.Ok? && r.value.mid == None && r.value.running == y.running
      && |r.value.waiting| == |y.waiting|
      && Common(c, r.value, extra)
      && Evolves(c, y.pool, Rows(y) + extra, r.value.pool, Rows(r.value) + extra)
  {
    hide Held, Evolves, Partial, Quiet;
    var s := y.waiting[0];
    var a := y.waiting[1..] + y.running + extra;
    var y' := Sys(Release(y.pool, s.table), y.waiting[1..] + [Preempted(s)], y.running, None);
    assert y.waiting + y.running + extra == [s] + a;
    PreemptKeeps(c, y.pool, s, a, y.waiting + y.running + extra, y'.waiting + y.running + extra);
    QuietAppend(y.waiting[1..], Preempted(s));
    assert MidConsistent(y') by { QuietHead(y'.waiting); }
  }

  lemma QuietAppend(q: seq<Row>, s: Row)
    requires AllQuiet(q) && Quiet(s)
    ensures AllQuiet(q + [s])
  {
  }

  lemma QuietHead(q: seq<Row>)
    requires AllQuiet(q)
    ensures q != [] ==> q[0].table == []
    ensures Owners(q) == multiset{}
  {
    OwnersNone(q);
  }

  lemma LastDecodes(q: seq<Row>)
    requires AllDecoding(q) && q != []
    ensures q[|q| - 1].sched == 0
  {
    assert Decoding(q[|q| - 1]);
  }

  lemma ReclaimLastHeld(c: Config, y: Sys, extra: seq<Row>, s: Row, last: nat)
    requires c.Valid() && Held(c, y.pool, y.waiting + y.running + extra) && last + 1 == |y.running| && s == y.running[last] && s.sched == 0
    ensures var p := Release(y.pool, s.table);
      var w, r := y.waiting + [Preempted(s)], y.running[..last];
      Held(c, p, w + r + extra) && Evolves(c, y.pool, y.waiting + y.running + extra, p, w + r + extra)
  {
    hide Held, Evolves, Preempted, Perm, Release;
    assert y.running == y.running[..last] + [s];
    PushRunning(y.waiting, y.running[..last], extra, s);
    PushWaiting(y.waiting, y.running[..last], extra, Preempted(s));
    PreemptKeeps(c, y.pool, s, y.waiting + y.running[..last] + extra, y.waiting + y.running + extra,
                 y.waiting + [Preempted(s)] + y.running[..last] + extra);
  }

  lemma ReclaimLastShape(y: Sys, s: Row, last: nat)
    requires WaitShape(y) && y.mid == None && last + 1 == |y.running| && s == y.running[last] && s.sched == 0
    ensures var y' := Sys(Release(y.pool, s.table), y.waiting + [Preempted(s)], y.running[..last], None);
      WaitShape(y') && Preempt(y.(running := y.running[..last]), s) == Ok(y')
  {
    hide Release, Quiet;
    PreemptedQuiet(s);
    QuietAppend(y.waiting, Preempted(s));
    QuietHead(y.waiting + [Preempted(s)]);
  }

  lemma PreemptedQuiet(s: Row)
    requires s.sched == 0
    ensures Quiet(Preempted(s))
  {
  }

  /** The youngest decoder is preempted. */
  lemma ReclaimLast(c: Config, y: Sys, extra: seq<Row>)
    requires c.Valid() && Common(c, y, extra) && y.mid == None && AllDecoding(y.running) && y.running != []
    ensures var last := |y.running| - 1;
      var r := Preempt(y.(running := y.running[..last]), y.running[last]);
      && r.Ok? && r.value.mid == None && r.value.running == y.running[..last]
      && Common(c, r.value, extra)
      && Evolves(c, y.pool, Rows(y) + extra, r.value.pool, Rows(r.value) + extra)
  {
    hide Held, Evolves, Quiet, AllQuiet, AllDecoding, Preempted, Perm, Release, WaitShape;
    var last := |y.running| - 1;
    var s := y.running[last];
    LastDecodes(y.running);
    ReclaimLastHeld(c, y, extra, s, last);
    ReclaimLastShape(y, s, last);
  }

  /** The row gives up its own blocks: only when nothing else is left to reclaim. */
  lemma ReclaimSelf(c: Config, y: Sys, cur: Row, done: seq<Row>)
    requires c.Valid() && Common(c, y, done + [cur]) && y.mid == None && y.running == [] && Decoding(cur)
    ensures var r := Preempt(y, cur);
      && r.Ok? && r.value.mid == None && r.value.running == []
      && Common(c, r.value, done)
      && Evolves(c, y.pool, Rows(y) + (done + [cur]), r.value.pool, Rows(r.value) + done)
  {
    hide Held, Evolves, Quiet, AllQuiet, Preempted, Perm;
    var a := y.waiting + y.running + done;
    var y' := Sys(Release(y.pool, cur.table), y.waiting + [Preempted(cur)], [], None);
    PushExtra(y.waiting, y.running, done, cur);
    PushWaiting(y.waiting, y.running, done, Preempted(cur));
    PreemptKeeps(c, y.pool, cur, a, y.waiting + y.running + (done + [cur]), y'.waiting + y'.running + done);
    QuietAppend(y.waiting, Preempted(cur));
    assert MidConsistent(y') by { QuietHead(y'.waiting); }
  }

  /** A row that is alone with its blocks always finds room to append. */
  lemma AloneHasRoom(c: Config, y: Sys, cur: Row)
    requires c.Valid() && Common(c, y, [cur]) && y.mid == None && y.running == [] && Decoding(cur)
    ensures CanAppend(c, y.pool, cur)
  {
    hide Wf, Owned, Contents, Quiet, Held, Fits, CeilDiv;
    var before := y.waiting + y.running + [cur];
    PushExtra(y.waiting, [], [], cur);
    assert y.waiting + [] + [] == y.waiting && y.waiting + [] + ([] + [cur]) == before;
    HeldFocus(c, y.pool, cur, y.waiting, before);
    QuietHead(y.waiting);
    assert Owners(y.waiting) + multiset(cur.table) == multiset(cur.table);
    FreeBesides(y.pool, cur.table);
    FitsNow(c, cur);
    AppendTest(cur.cached, c.blockSize);
  }

  /** Making room succeeds for the row or, failing that, requeues it; it can only
      fail when another decode row is already scheduled. */
  lemma {:induction false} MakeRoomKeeps(c: Config, y: Sys, cur: Row, done: seq<Row>)
    requires c.Valid() && Common(c, y, done + [cur]) && NoChunk(y) && AllDecoding(y.running) && Decoding(cur)
    ensures var r := MakeRoom(c, y, cur);
      && r.Ok?
      && var y' := r.value.sys;
      && NoChunk(y') && y'.running <= y.running
      && (y'.mid == y.mid || y'.mid == None)
      && (r.value.found ==>
            && Common(c, y', done + [cur]) && CanAppend(c, y'.pool, cur)
            && Evolves(c, y.pool, Rows(y) + (done + [cur]), y'.pool, Rows(y') + (done + [cur])))
      && (!r.value.found ==>
            && done != [] && y'.running == [] && y'.mid == None && Common(c, y', done)
            && Evolves(c, y.pool, Rows(y) + (done + [cur]), y'.pool, Rows(y') + done))
    decreases (if y.mid.Some? then 1 else 0) + |y.running|
  {
    hide Common, Evolves, CanAppend, Preempt;
    var extra := done + [cur];
    if CanAppend(c, y.pool, cur) {
      PermSelf(Rows(y) + extra);
      EvolvesPerm(c, y.pool, Rows(y) + extra, Rows(y) + extra);
    } else if y.mid.Some? {
      MidHead(c, y, extra);
      ReclaimPartial(c, y, extra);
      var y' := Preempt(y.(waiting := y.waiting[1..]), y.waiting[0]).value;
      MakeRoomKeeps(c, y', cur, done);
      var z := MakeRoom(c, y', cur).value;
      EvolvesTrans(c, y.pool, Rows(y) + extra, y'.pool, Rows(y') + extra, z.sys.pool,
                   Rows(z.sys) + if z.found then extra else done);
    } else if y.running != [] {
      var last := |y.running| - 1;
      ReclaimLast(c, y, extra);
      var y' := Preempt(y.(running := y.running[..last]), y.running[last]).value;
      MakeRoomKeeps(c, y', cur, done);
      var z := MakeRoom(c, y', cur).value;
      EvolvesTrans(c, y.pool, Rows(y) + extra, y'.pool, Rows(y') + extra, z.sys.pool,
                   Rows(z.sys) + if z.found then extra else done);
    } else {
      if done == [] {
        assert extra == [cur];
        AloneHasRoom(c, y, cur);
      }
      ReclaimSelf(c, y, cur, done);
    }
  }

  lemma MidHead(c: Config, y: Sys, extra: seq<Row>)
    requires c.Valid() && Common(c, y, extra) && y.mid.Some?
    ensures y.waiting != [] && Some(y.waiting[0].id) == y.mid
  {
  }

  // ----- the decode phase -----

  /** One decoding row gets the block its next position needs. */
  lemma PlanDecode(c: Config, y: Sys, cur: Row, done: seq<Row>)
    requires c.Valid() && Common(c, y, done + [cur]) && Decoding(cur) && CanAppend(c, y.pool, cur)
    ensures var (p', cur') := MayAppend(c, y.pool, cur.(sched := 1, prefill := false));
      && Planned(cur') && cur'.id == cur.id
      && Common(c, y.(pool := p'), done + [cur'])
      && Evolves(c, y.pool, Rows(y) + (done + [cur]), p', Rows(y) + (done + [cur']))
  {
    hide Held, Wf, Owned, Keeps, RowOk, From, Shrinks, Evolves, MayAppend, AllQuiet, Partial, CanAppend, Perm;
    var s := cur.(sched := 1, prefill := false);
    var a := Rows(y) + done;
    var before := y.waiting + y.running + (done + [cur]);
    var (p', cur') := MayAppend(c, y.pool, s);
    PushExtra(y.waiting, y.running, done, cur);
    PushExtra(y.waiting, y.running, done, cur');
    HeldFocus(c, y.pool, cur, a, before);
    PlannedOk(c, y.pool, cur, Owners(a));
    FromCore(c, y.pool, cur, cur');
    assert cur'.id == Core(cur').id == Core(cur).id == cur.id;
    Replaced(c, y.pool, p', cur, cur', a, before, y.waiting + y.running + (done + [cur']));
  }

  lemma PlannedOk(c: Config, p: Pool, cur: Row, rest: multiset<nat>)
    requires c.Valid() && Wf(p) && Owned(p, rest + multiset(cur.table)) && RowOk(c, p, cur)
    requires Decoding(cur) && CanAppend(c, p, cur)
    ensures var (p', cur') := MayAppend(c, p, cur.(sched := 1, prefill := false));
      && Planned(cur') && RowOk(c, p', cur') && From(c, p, cur, cur')
      && Wf(p') && Owned(p', rest + multiset(cur'.table)) && Keeps(p, p', rest) && Shrinks(p, p')
  {
    var s := cur.(sched := 1, prefill := false);
    ContentsSame(c, p, cur, s);
    assert CanAppend(c, p, s);
    hide Wf, Owned, Keeps, Contents, MayAppend, Shrinks, IsHit, CanAppend, CeilDiv;
    MayAppendKeeps(c, p, s, rest);
    var (p', cur') := MayAppend(c, p, s);
    FitsSame(c, cur, cur');
    assert RowOk(c, p', cur');
    assert From(c, p, cur, cur') by { assert cur.table <= cur'.table; }
  }

  lemma FitsSame(c: Config, s: Row, s': Row)
    requires c.Valid() && Fits(c, s) && s'.toks == s.toks && s'.prompt == s.prompt && s'.maxTokens == s.maxTokens
    ensures Fits(c, s')
  {
  }

  lemma ContentsSame(c: Config, p: Pool, s: Row, s': Row)
    requires c.Valid() && Contents(c, p, s)
    requires s'.toks == s.toks && s'.table == s.table && s'.cached == s.cached
    ensures Contents(c, p, s')
  {
  }

  lemma CommonCount(c: Config, y: Sys, extra: seq<Row>)
    requires c.Valid() && Common(c, y, extra)
    ensures |y.waiting| + |y.running| + |extra| <= c.maxSeqs
  {
  }

  /** Popping the front of the running queue. */
  lemma TakeFront(c: Config, y: Sys, done: seq<Row>)
    requires c.Valid() && Common(c, y, done) && y.running != []
    ensures var y0 := y.(running := y.running[1..]);
      && Common(c, y0, done + [y.running[0]])
      && Evolves(c, y.pool, Rows(y) + done, y.pool, Rows(y0) + (done + [y.running[0]]))
  {
    hide Held, Evolves, Perm;
    var cur := y.running[0];
    var before := y.waiting + y.running + done;
    var after := y.waiting + y.running[1..] + (done + [cur]);
    assert y.running == [cur] + y.running[1..];
    PullFront(y.waiting, y.running[1..], done, cur);
    PushExtra(y.waiting, y.running[1..], done, cur);
    PermTrans(before, [cur] + (y.waiting + y.running[1..] + done), after);
    HeldPerm(c, y.pool, before, after);
    EvolvesPerm(c, y.pool, before, after);
  }

  /** The decode phase never fails, plans every surviving decode row, and always
      plans the front of a non-empty running queue. */
  lemma {:induction false} DecodePhaseKeeps(c: Config, y: Sys, done: seq<Row>)
    requires c.Valid() && Common(c, y, done) && NoChunk(y) && AllDecoding(y.running) && AllPlanned(done)
    ensures var r := DecodePhase(c, y, done);
      && r.Ok?
      && var Decoded(y', done') := r.value;
      && Common(c, y', done') && NoChunk(y') && y'.running == [] && AllPlanned(done')
      && done <= done'
      && (y.running != [] && done == [] ==> done' != [] && done'[0].id == y.running[0].id)
      && (y'.mid == y.mid || y'.mid == None)
      && Evolves(c, y.pool, Rows(y) + done, y'.pool, Rows(y') + done')
    decreases |y.running|
  {
    hide Common, Evolves, MakeRoom, MayAppend, CanAppend, Planned;
    CommonCount(c, y, done);
    if y.running == [] {
      PermSelf(Rows(y) + done);
      EvolvesPerm(c, y.pool, Rows(y) + done, Rows(y) + done);
    } else {
      var cur := y.running[0];
      var y0 := y.(running := y.running[1..]);
      TakeFront(c, y, done);
      MakeRoomKeeps(c, y0, cur, done);
      var Room(y1, found) := MakeRoom(c, y0, cur).value;
      if found {
        PlanDecode(c, y1, cur, done);
        var (p2, cur') := MayAppend(c, y1.pool, cur.(sched := 1, prefill := false));
        var y2 := y1.(pool := p2);
        DecodePhaseKeeps(c, y2, done + [cur']);
        var Decoded(y3, done') := DecodePhase(c, y2, done + [cur']).value;
        EvolvesTrans(c, y.pool, Rows(y) + done, y.pool, Rows(y0) + (done + [cur]), y1.pool, Rows(y1) + (done + [cur]));
        EvolvesTrans(c, y.pool, Rows(y) + done, y1.pool, Rows(y1) + (done + [cur]), p2, Rows(y2) + (done + [cur']));
        EvolvesTrans(c, y.pool, Rows(y) + done, p2, Rows(y2) + (done + [cur']), y3.pool, Rows(y3) + done');
      } else {
        DecodePhaseKeeps(c, y1, done);
        var Decoded(y3, done') := DecodePhase(c, y1, done).value;
        EvolvesTrans(c, y.pool, Rows(y) + done, y.pool, Rows(y0) + (done + [cur]), y1.pool, Rows(y1) + done);
        EvolvesTrans(c, y.pool, Rows(y) + done, y1.pool, Rows(y1) + done, y3.pool, Rows(y3) + done');
      }
    }
  }

  // ----- the fill phase -----

  /** What placing the waiting head achieves. */
  ghost predicate PlacedOk(c: Config, p: Pool, s: Row, remaining: nat, r: Placement, rest: multiset<nat>)
    requires c.Valid()
  {
    && r.Placed? && 1 <= r.row.sched <= remaining
    && (r.row.sched < r.work ==> r.row.sched == remaining)
    && RowOk(c, r.pool, r.row) && From(c, p, s, r.row)
    && r.row.status == s.status && r.row.prefill == s.prefill && r.row.draft == 0
    && Wf(r.pool) && Owned(r.pool, rest + multiset(r.row.table)) && Keeps(p, r.pool, rest) && Shrinks(p, r.pool)
  }

  lemma PlaceQuiet(c: Config, p: Pool, s: Row, remaining: nat, rest: multiset<nat>)
    requires c.Valid() && Wf(p) && Owned(p, rest) && RowOk(c, p, s) && Quiet(s) && remaining >= 1
    ensures var r := Place(c, p, s, remaining);
      if CanAllocate(c, p, s).None? then r == NotAdmitted else PlacedOk(c, p, s, remaining, r, rest)
  {
    hide FreeList, Owned, Keeps, Shrinks, CanAllocate, AllocateIncremental, IsHit, CeilDiv;
    var got := CanAllocate(c, p, s);
    if got.Some? {
      AdmissionLeaves(c, p, s);
      var nc := got.value;
      var n := Min(|s.toks| - nc * c.blockSize, remaining);
      AdmissionSound(c, p, s, nc * c.blockSize + n, rest);
      hide Contents, IndexAgrees;
      var r := AllocateIncremental(c, p, s, nc, nc * c.blockSize + n);
      ContentsSame(c, r.pool, r.row, r.row.(sched := n));
      IsHitSame(c, p, r.row, r.row.(sched := n));
      FitsSame(c, s, r.row.(sched := n));
    }
  }

  lemma IsHitSame(c: Config, p: Pool, s: Row, s': Row)
    requires c.Valid() && IsHit(c, p, s) && s'.toks == s.toks && s'.table == s.table && s'.cached == s.cached
    ensures IsHit(c, p, s')
  {
  }

  lemma FewerBlocks(k: nat, n: nat, bs: nat, len: nat)
    requires n >= 1 && k <= n - 1 && (n - 1) * bs < len
    ensures k * bs < len
  {
    MulMono(k, n - 1, bs);
  }

  lemma SomeBlock(len: nat, bs: nat)
    requires bs >= 1 && len >= 1
    ensures CeilDiv(len, bs) >= 1 && (CeilDiv(len, bs) - 1) * bs < len
  {
    CeilBounds(len, bs);
    assert (CeilDiv(len, bs) - 1) * bs == CeilDiv(len, bs) * bs - bs;
  }

  /** The hits always leave at least the last block to compute. */
  lemma AdmissionLeaves(c: Config, p: Pool, s: Row)
    requires c.Valid() && IndexAgrees(p) && |s.toks| >= 1 && CanAllocate(c, p, s).Some?
    ensures CanAllocate(c, p, s).value * c.blockSize < |s.toks|
  {
    hide IndexAgrees, Hits, Chain, BlockTokens, CountOut, CeilDiv, HitAt;
    var n := s.NumBlocks(c.blockSize);
    SomeBlock(|s.toks|, c.blockSize);
    ChainZero(c, s.toks);
    HitsAre(c, p, s.toks, 0, n - 1, NO_HASH);
    FewerBlocks(CanAllocate(c, p, s).value, n, c.blockSize, |s.toks|);
  }

  lemma PlacePartial(c: Config, p: Pool, s: Row, remaining: nat, rest: multiset<nat>)
    requires c.Valid() && Wf(p) && Owned(p, rest + multiset(s.table)) && RowOk(c, p, s)
    requires Partial(s) && s.sched == 0 && remaining >= 1
    ensures var r := Place(c, p, s, remaining);
      && (r == NoBlocks || PlacedOk(c, p, s, remaining, r, rest))
      && (r == NoBlocks ==> |p.free| < s.NumBlocks(c.blockSize) - |s.table|)
  {
    hide FreeList, IndexAgrees, Owned, Keeps, Shrinks, Extend, IsHit, Contents;
    CeilBounds(s.cached, c.blockSize);
    hide CeilDiv;
    var n := Min(|s.toks| - s.cached, remaining);
    assert s.table != [];
    ExtendKeeps(c, p, s, s.cached + n, rest);
    CeilMono(s.cached + n, |s.toks|, c.blockSize);
    var r := Extend(c, p, s, s.cached + n);
    if r.Done? {
      ContentsSame(c, r.pool, r.row, r.row.(sched := n));
      FitsSame(c, s, r.row.(sched := n));
    }
  }

  ghost predicate Filling(c: Config, y: Sys, ids: seq<nat>, tokens: nat)
    requires c.Valid()
  {
    && Common(c, y, []) && NoChunk(y) && AllComplete(y.running)
    && ids == Ids(y.running) && tokens == SchedTokens(y.running) <= c.budget
  }

  lemma HeadRest(c: Config, y: Sys)
    requires c.Valid() && Common(c, y, []) && y.waiting != []
    ensures var s := y.waiting[0]; var rest := Owners(y.waiting[1..] + y.running);
      && Wf(y.pool) && Owned(y.pool, rest + multiset(s.table)) && RowOk(c, y.pool, s)
      && s.NumBlocks(c.blockSize) <= |y.pool.blocks|
      && AllQuiet(y.waiting[1..])
      && (y.running == [] ==> rest == multiset{})
  {
    hide Wf, Owned, Contents, Held, Partial, Quiet, Perm;
    var s := y.waiting[0];
    var a := y.waiting[1..] + y.running;
    RowsPlain(y);
    HeadFirst(y.waiting, y.running);
    HeldFocus(c, y.pool, s, a, Rows(y));
    FitsNow(c, s);
    QuietTail(y);
    QuietHead(y.waiting[1..]);
    if y.running == [] { assert a == y.waiting[1..]; }
  }

  /** Placing the head yields the expected allocator facts about the head's blocks. */
  lemma PlaceHead(c: Config, y: Sys, remaining: nat)
    requires c.Valid() && Common(c, y, []) && NoChunk(y) && y.waiting != [] && remaining >= 1
    ensures var s := y.waiting[0];
      var r := Place(c, y.pool, s, remaining);
      var rest := Owners(y.waiting[1..] + y.running);
      && (r == NoBlocks ==> y.mid.Some?)
      && (r == NotAdmitted || r == NoBlocks || PlacedOk(c, y.pool, s, remaining, r, rest))
      && (r == NotAdmitted ==> y.mid.None?)
      && (y.running == [] ==> r.Placed?)
  {
    var s := y.waiting[0];
    var rest := Owners(y.waiting[1..] + y.running);
    HeadRest(c, y);
    hide Wf, Owned, Place, PlacedOk, Held, RowOk, Owners, Row.NumBlocks;
    assert rest == multiset{} ==> rest + multiset(s.table) == multiset(s.table);
    if y.mid.Some? {
      PlacePartial(c, y.pool, s, remaining, rest);
      if y.running == [] { FreeBesides(y.pool, s.table); }
    } else {
      assert s.table == [];
      assert rest + multiset(s.table) == rest;
      PlaceQuiet(c, y.pool, s, remaining, rest);
      if y.running == [] { EmptyPoolAdmits(c, y.pool, s); }
      assert PlacedOk(c, y.pool, s, remaining, Place(c, y.pool, s, remaining), rest)
        ==> Place(c, y.pool, s, remaining).Placed? by { PlacedIs(c, y.pool, s, remaining, rest); }
    }
  }

  lemma PlacedIs(c: Config, p: Pool, s: Row, remaining: nat, rest: multiset<nat>)
    requires c.Valid()
    ensures var r := Place(c, p, s, remaining); PlacedOk(c, p, s, remaining, r, rest) ==> r.Placed?
  {
    hide Place, RowOk, From, Wf, Owned, Keeps, Shrinks;
  }

  /** The head joins the running queue with the rest of its prompt scheduled. */
  lemma PlaceComplete(c: Config, y: Sys, pool: Pool, row: Row)
    requires c.Valid() && Common(c, y, []) && y.waiting != [] && row.sched >= 1 && row.cached + row.sched == |row.toks|
    requires var s := y.waiting[0]; var rest := Owners(y.waiting[1..] + y.running);
      && RowOk(c, pool, row) && From(c, y.pool, s, row)
      && Wf(pool) && Owned(pool, rest + multiset(row.table)) && Keeps(y.pool, pool, rest) && Shrinks(y.pool, pool)
    ensures var y' := Placing(y, pool, row, 0);
      && Common(c, y', []) && y'.mid == None && y'.running == y.running + [row.(status := Running)]
      && Evolves(c, y.pool, Rows(y), pool, Rows(y'))
  {
    hide Held, Wf, Owned, Keeps, RowOk, From, Shrinks, Evolves, Quiet, Partial, Perm, Owners, AllQuiet;
    var s := y.waiting[0];
    var s' := row.(status := Running);
    FromCore(c, y.pool, s, row);
    assert row.id == Core(row).id == Core(s).id == s.id;
    MidOfHead(y);
    var y' := Sys(pool, y.waiting[1..], y.running + [s'], None);
    assert Placing(y, pool, row, 0) == y';
    RowsPlain(y);
    RowsPlain(y');
    HeadFirst(y.waiting, y.running);
    ToBack(y.waiting[1..], y.running, s');
    StatusOk(c, pool, row);
    FromStatus(c, y.pool, s, row);
    Replaced(c, y.pool, pool, s, s', y.waiting[1..] + y.running, Rows(y), Rows(y'));
    QuietTail(y);
  }

  lemma MidOfHead(y: Sys)
    requires WaitShape(y) && y.waiting != []
    ensures y.mid.Some? ==> y.mid == Some(y.waiting[0].id)
  {
  }

  lemma HeadFirst(w: seq<Row>, r: seq<Row>)
    requires w != []
    ensures w + r == [w[0]] + (w[1..] + r)
    ensures Perm(w + r, [w[0]] + (w[1..] + r)) && Perm([w[0]] + (w[1..] + r), w + r)
  {
  }

  lemma ToBack(w: seq<Row>, r: seq<Row>, s: Row)
    ensures Perm([s] + (w + r), w + (r + [s]))
  {
  }

  lemma RowsPlain(y: Sys)
    ensures y.waiting + y.running + [] == Rows(y)
  {
  }

  lemma QuietTail(y: Sys)
    requires WaitShape(y) && y.waiting != []
    ensures AllQuiet(y.waiting[1..])
  {
  }

  lemma StatusOk(c: Config, p: Pool, row: Row)
    requires c.Valid() && RowOk(c, p, row)
    ensures RowOk(c, p, row.(status := Running))
  {
    ContentsSame(c, p, row, row.(status := Running));
    FitsSame(c, row, row.(status := Running));
  }

  lemma FromStatus(c: Config, p: Pool, s: Row, row: Row)
    requires c.Valid() && From(c, p, s, row)
    ensures From(c, p, s, row.(status := Running))
  {
    if row.draft == 0 && IsHit(c, p, row) {
      IsHitSame(c, p, row, row.(status := Running));
    }
  }

  /** The head gets a chunk that uses up the budget and stays the waiting head. */
  lemma PlaceChunk(c: Config, y: Sys, pool: Pool, row: Row)
    requires c.Valid() && Common(c, y, []) && y.waiting != []
    requires row.status == Waiting && row.prefill && row.draft == 0
    requires row.sched >= 1 && row.cached + row.sched < |row.toks|
    requires var s := y.waiting[0]; var rest := Owners(y.waiting[1..] + y.running);
      && RowOk(c, pool, row) && From(c, y.pool, s, row)
      && Wf(pool) && Owned(pool, rest + multiset(row.table)) && Keeps(y.pool, pool, rest) && Shrinks(y.pool, pool)
    ensures var y' := Placing(y, pool, row, 0).(mid := Some(y.waiting[0].id));
      && Common(c, y', []) && y'.running == y.running && y'.waiting[0] == row
      && Evolves(c, y.pool, Rows(y), pool, Rows(y'))
  {
    hide Held, Wf, Owned, Keeps, RowOk, From, Shrinks, Evolves, Quiet, Perm, Owners;
    var s := y.waiting[0];
    var a := y.waiting[1..] + y.running;
    var y' := Placing(y, pool, row, 0).(mid := Some(s.id));
    FromCore(c, y.pool, s, row);
    assert row.id == Core(row).id == Core(s).id == s.id;
    RowsPlain(y);
    RowsPlain(y');
    assert y'.waiting[1..] == y.waiting[1..];
    HeadFirst(y.waiting, y.running);
    HeadFirst(y'.waiting, y'.running);
    Replaced(c, y.pool, pool, s, row, a, Rows(y), Rows(y'));
    QuietTail(y);
  }

  lemma IdsAppend(q: seq<Row>, s: Row)
    ensures Ids(q + [s]) == Ids(q) + [s.id]
  {
  }

  lemma NoChunkYet(c: Config, y: Sys)
    requires WaitShape(y) && NoChunk(y)
    ensures ChunkIds(y) == [] && ChunkTokens(y) == 0
  {
  }

  ghost predicate FilledOk(c: Config, y: Sys, ids: seq<nat>, f: Filled)
    requires c.Valid()
  {
    && Common(c, f.sys, []) && AllComplete(f.sys.running) && y.running <= f.sys.running
    && f.ids == Ids(f.sys.running) + ChunkIds(f.sys) && ids <= f.ids
    && SchedTokens(f.sys.running) + ChunkTokens(f.sys) <= c.budget
    && Evolves(c, y.pool, Rows(y), f.sys.pool, Rows(f.sys))
    && (y.waiting != [] && ids == [] ==> f.ids != [])
  }

  lemma FillingFacts(c: Config, y: Sys, ids: seq<nat>, tokens: nat)
    requires c.Valid() && Filling(c, y, ids, tokens)
    ensures Common(c, y, []) && NoChunk(y) && |ids| == |y.running|
    ensures ids == [] ==> y.running == [] && tokens == 0
  {
    hide Common;
  }

  lemma FillStops(c: Config, y: Sys, ids: seq<nat>, tokens: nat)
    requires c.Valid() && Filling(c, y, ids, tokens) && (y.waiting == [] || ids != [])
    ensures FilledOk(c, y, ids, Filled(y, ids))
  {
    hide Common, Evolves, Complete;
    CommonShape(c, y);
    NoChunkYet(c, y);
    PermSelf(Rows(y));
    EvolvesPerm(c, y.pool, Rows(y), Rows(y));
    assert ids == Ids(y.running) + ChunkIds(y);
  }

  lemma FillJoins(c: Config, y: Sys, y': Sys, ids: seq<nat>, id: nat, f: Filled)
    requires c.Valid() && FilledOk(c, y', ids + [id], f) && y.running <= y'.running
    requires Evolves(c, y.pool, Rows(y), y'.pool, Rows(y'))
    ensures FilledOk(c, y, ids, f)
  {
    hide Common, Evolves, Complete;
    EvolvesTrans(c, y.pool, Rows(y), y'.pool, Rows(y'), f.sys.pool, Rows(f.sys));
  }

  /** Chunked prefill never fails; with nothing scheduled before, it always
      schedules the waiting head. */
  lemma {:induction false} FillPhaseKeeps(c: Config, y: Sys, ids: seq<nat>, tokens: nat)
    requires c.Valid() && Filling(c, y, ids, tokens)
    ensures FillPhase(c, y, ids, tokens).Ok? && FilledOk(c, y, ids, FillPhase(c, y, ids, tokens).value)
    decreases |y.waiting|
  {
    hide Common, Evolves, Place, RowOk, From, Wf, Owned, Keeps, Shrinks, Preempt, Complete, Quiet, Partial, Filling, FilledOk;
    FillingFacts(c, y, ids, tokens);
    if y.waiting == [] || |ids| >= c.maxSeqs || tokens >= c.budget {
      FillStops(c, y, ids, tokens);
    } else {
      var s := y.waiting[0];
      PlaceHead(c, y, c.budget - tokens);
      var r := Place(c, y.pool, s, c.budget - tokens);
      if r == NotAdmitted {
        FillStops(c, y, ids, tokens);
      } else if r == NoBlocks {
        FillReclaims(c, y, ids, tokens);
      } else if r.row.sched < r.work {
        FillChunk(c, y, ids, tokens, r.pool, r.row);
      } else {
        FillComplete(c, y, ids, tokens, r.pool, r.row);
        var y' := Placing(y, r.pool, r.row, 0);
        FillPhaseKeeps(c, y', ids + [s.id], tokens + r.row.sched);
        var f := FillPhase(c, y', ids + [s.id], tokens + r.row.sched).value;
        FillJoins(c, y, y', ids, s.id, f);
      }
    }
  }

  lemma CommonShape(c: Config, y: Sys)
    requires c.Valid() && Common(c, y, [])
    ensures WaitShape(y)
  {
  }

  lemma FillReclaims(c: Config, y: Sys, ids: seq<nat>, tokens: nat)
    requires c.Valid() && Filling(c, y, ids, tokens) && y.mid.Some? && ids != []
    ensures var s := y.waiting[0];
      && y.mid == Some(s.id)
      && var p := Preempt(y.(waiting := y.waiting[1..]), s.(sched := 0));
        p.Ok? && FilledOk(c, y, ids, Filled(p.value, ids))
  {
    hide Held, Evolves;
    ReclaimPartial(c, y, []);
    var s := y.waiting[0];
    assert s.(sched := 0) == s;
    var y' := Preempt(y.(waiting := y.waiting[1..]), s).value;
    assert Rows(y) + [] == Rows(y) && Rows(y') + [] == Rows(y');
    NoChunkYet(c, y');
    assert ids == Ids(y'.running) + ChunkIds(y');
  }

  lemma FillChunk(c: Config, y: Sys, ids: seq<nat>, tokens: nat, pool: Pool, row: Row)
    requires c.Valid() && Filling(c, y, ids, tokens) && y.waiting != [] && tokens < c.budget
    requires 1 <= row.sched == c.budget - tokens && row.cached + row.sched < |row.toks|
    requires row.status == y.waiting[0].status && row.prefill == y.waiting[0].prefill && row.draft == 0
    requires var s := y.waiting[0]; var rest := Owners(y.waiting[1..] + y.running);
      && RowOk(c, pool, row) && From(c, y.pool, s, row)
      && Wf(pool) && Owned(pool, rest + multiset(row.table)) && Keeps(y.pool, pool, rest) && Shrinks(y.pool, pool)
    ensures var s := y.waiting[0];
      var y' := Placing(y, pool, row, 0);
      && (y'.mid.None? || y'.mid == Some(s.id))
      && FilledOk(c, y, ids, Filled(y'.(mid := Some(s.id)), ids + [s.id]))
  {
    hide Held, Wf, Owned, Keeps, RowOk, From, Shrinks, Evolves;
    var s := y.waiting[0];
    FromCore(c, y.pool, s, row);
    assert row.id == Core(row).id == Core(s).id == s.id;
    PlaceChunk(c, y, pool, row);
  }

  lemma FillComplete(c: Config, y: Sys, ids: seq<nat>, tokens: nat, pool: Pool, row: Row)
    requires c.Valid() && Filling(c, y, ids, tokens) && y.waiting != [] && tokens < c.budget
    requires 1 <= row.sched <= c.budget - tokens && row.cached + row.sched == |row.toks|
    requires var s := y.waiting[0]; var rest := Owners(y.waiting[1..] + y.running);
      && RowOk(c, pool, row) && From(c, y.pool, s, row)
      && Wf(pool) && Owned(pool, rest + multiset(row.table)) && Keeps(y.pool, pool, rest) && Shrinks(y.pool, pool)
    ensures var s := y.waiting[0];
      var y' := Placing(y, pool, row, 0);
      && Filling(c, y', ids + [s.id], tokens + row.sched) && y.running <= y'.running
      && |y'.waiting| < |y.waiting|
      && Evolves(c, y.pool, Rows(y), pool, Rows(y'))
  {
    hide Held, Wf, Owned, Keeps, RowOk, From, Shrinks, Evolves;
    var s := y.waiting[0];
    FromCore(c, y.pool, s, row);
    assert row.id == Core(row).id == Core(s).id == s.id;
    PlaceComplete(c, y, pool, row);
    IdsAppend(y.running, row.(status := Running));
    SchedTokensAppend(y.running, row.(status := Running));
  }

  // ----- the whole decision -----

  lemma {:induction false} PlannedTokens(q: seq<Row>)
    requires AllPlanned(q)
    ensures SchedTokens(q) == |q| && AllComplete(q)
  {
    if q != [] {
      assert forall i :: 0 <= i < |q| - 1 ==> q[1..][i] == q[i + 1];
      PlannedTokens(q[1..]);
    }
  }

  lemma MidChecked(c: Config, y: Sys)
    requires c.Valid() && Common(c, y, [])
    ensures MidConsistent(y)
  {
    hide Wf, Owned, Contents, Fits;
    if y.mid.Some? {
      RowsPlain(y);
      HeldMember(c, y.pool, y.waiting + y.running + [], y.waiting[0]);
      CeilBounds(y.waiting[0].cached + y.waiting[0].sched, c.blockSize);
    }
  }

  lemma IdleChecked(c: Config, y: Sys)
    requires c.Valid() && Idle(c, y)
    ensures MidConsistent(y)
  {
    MidChecked(c, y);
  }

  lemma AfterDecode(c: Config, y1: Sys, done: seq<Row>)
    requires c.Valid() && Common(c, y1, done) && NoChunk(y1) && y1.running == [] && AllPlanned(done)
    ensures var y2 := y1.(running := done + y1.running);
      && Filling(c, y2, Ids(done), |done|) && y2.running == done
      && Rows(y1) + done == Rows(y2)
  {
    hide Held, Quiet, Partial;
    PlannedTokens(done);
    var y2 := y1.(running := done + y1.running);
    assert y2.running == done;
    assert y1.waiting + y1.running + done == y2.waiting + y2.running + [];
  }

  /** No scheduling deadlock: with pending work, on every idle state, scheduling
      raises no error and schedules a row; the front of a non-empty running queue
      is always in the batch; the result respects the token and row budgets, has at
      most one partial row, and only keeps, restarts or prefix-matches requests. */
  lemma ScheduleProgress(c: Config, y: Sys)
    requires c.Valid() && Idle(c, y) && (y.waiting != [] || y.running != [])
    ensures Schedule(c, y).Ok?
    ensures var r := Schedule(c, y).value;
      && Ready(c, r.sys, r.ids) && |r.ids| <= c.maxSeqs
      && (y.running != [] ==> r.ids[0] == y.running[0].id)
      && (!r.prefill ==> AllPlanned(r.sys.running) && r.ids == Ids(r.sys.running) && ChunkIds(r.sys) == [])
      && Evolves(c, y.pool, Rows(y), r.sys.pool, Rows(r.sys))
  {
    hide Common, Evolves, DecodePhase, FillPhase, Planned, Complete;
    assert Rows(y) + [] == Rows(y);
    MidChecked(c, y);
    DecodePhaseKeeps(c, y, []);
    var Decoded(y1, done) := DecodePhase(c, y, []).value;
    AfterDecode(c, y1, done);
    CommonCount(c, y1, done);
    var y2 := y1.(running := done + y1.running);
    FillPhaseKeeps(c, y2, Ids(done), |done|);
    var f := FillPhase(c, y2, Ids(done), |done|).value;
    EvolvesTrans(c, y.pool, Rows(y), y2.pool, Rows(y2), f.sys.pool, Rows(f.sys));
    if y.running == [] {
      IdlePrefill(c, y);
    }
    assert f.ids != [];
    MidChecked(c, f.sys);
    CommonCount(c, f.sys, []);
    if |f.ids| <= |done| {
      assert f.sys.running == done;
    }
  }

  lemma ScheduleCores(c: Config, y: Sys)
    requires c.Valid() && Idle(c, y) && (y.waiting != [] || y.running != [])
    ensures Schedule(c, y).Ok? && Cores(Rows(y)) == Cores(Rows(Schedule(c, y).value.sys))
  {
    hide Idle, Schedule, Cores, Rows, AllFrom, Shrinks, Ready;
    ScheduleProgress(c, y);
  }

  /** Without decode rows the waiting queue is untouched when the fill starts. */
  lemma IdlePrefill(c: Config, y: Sys)
    requires c.Valid() && y.running == []
    ensures DecodePhase(c, y, []) == Ok(Decoded(y, []))
  {
  }

  /** Only an empty engine refuses to schedule. */
  lemma NothingToSchedule(c: Config, y: Sys)
    requires c.Valid() && Idle(c, y)
    ensures Schedule(c, y).Err? <==> y.waiting == [] && y.running == []
    ensures Schedule(c, y).Err? ==> Schedule(c, y).error == NothingPending
  {
    if y.waiting == [] && y.running == [] {
      IdlePrefill(c, y);
      MidChecked(c, y);
    } else {
      ScheduleProgress(c, y);
    }
  }
}
