/** The scheduler as an object: its queues are changed in place, request by request.
    Every method is proved against the function that specifies it. */
module Dispatch {
  import opened Arith
  import opened Types
  import opened Pools
  import opened Allocator
  import opened Queues
  import opened Evolution
  import opened Scheduling
  import opened States
  import opened Progress
  import opened Commit
  import opened Leases
  import opened Speculation
  import opened Burst
  import opened Transactions
  import opened Undo
  import opened Requests
  import opened Protocol
  import opened Manager

  datatype Outcome = Took(work: int) | Refused | Stuck

  class Scheduler {
    const c: Config
    const manager: BlockManager
    var waiting: seq<Sequence>
    var running: seq<Sequence>
    var mid: Sequence?
    ghost var Repr: set<Sequence>     // every request this scheduler works on

    function View(): Sys
      reads this, manager, waiting, running
    {
      Sys(manager.View(), Views(waiting), Views(running), if mid == null then None else Some(mid.id))
    }

    /** Objects are not shared between the queues and the rows in hand. */
    ghost predicate Tidy(hand: seq<Sequence>)
      reads this
    {
      && c.Valid() && manager.c == c && Separate(waiting + running + hand)
      && (mid != null ==> mid in waiting)
      && (forall x :: x in waiting ==> x in Repr) && (forall x :: x in running ==> x in Repr) && (forall x :: x in hand ==> x in Repr)
    }

    constructor (c: Config)
      requires c.Valid()
      ensures fresh(manager) && this.c == c && Tidy([])
      ensures View() == Sys(FreshPool(c), [], [], None) && manager.lease == None
    {
      this.c := c;
      manager := new BlockManager(c);
      waiting, running, mid, Repr := [], [], null, {};
    }

    /** Queue a new request, if a slot is free. */
    method Add(s: Sequence) returns (ok: bool)
      requires Tidy([]) && s !in waiting && s !in running
      modifies this`waiting, this`Repr
      ensures Tidy([])
      ensures ok <==> |old(waiting)| + |running| < c.maxSeqs
      ensures View() == if ok then old(View()).(waiting := old(View()).waiting + [s.View()]) else old(View())
      ensures Repr == if ok then old(Repr) + {s} else old(Repr)
    {
      ok := |waiting| + |running| < c.maxSeqs;
      if ok {
        JoinsWaiting(waiting, running, [], s);
        waiting, Repr := waiting + [s], Repr + {s};
      }
    }

    method CheckMid() returns (ok: bool)
      requires Tidy([]) && Distinct(Views(waiting))
      ensures ok <==> MidConsistent(View())
    {
      if mid == null {
        ok := waiting == [] || waiting[0].table == [];
      } else {
        HeadIs(waiting, mid);
        ok := waiting != [] && waiting[0] == mid && mid.table != [];
      }
    }

    /** Requeue a row that has already been taken out of its queue. */
    method Preempt(s: Sequence)
      requires s !in waiting && s !in running && s in Repr
      requires forall k :: 0 <= k < |s.table| ==> s.table[k] < |manager.blocks|
      requires mid != null && mid.id == s.id ==> mid == s
      requires Scheduling.Preempt(View(), s.View()).Ok?
      modifies this`waiting, this`mid, manager, s
      ensures Scheduling.Preempt(old(View()), old(s.View())) == Ok(View())
      ensures waiting == old(waiting) + [s] && running == old(running)
      ensures mid == if old(mid) == s then null else old(mid)
      ensures manager.lease == old(manager.lease)
    {
      hide Scheduling.Preempt, Release, MidConsistent;
      ghost var y, r := View(), s.View();
      PreemptIs(y, r);
      if s == mid { mid := null; }
      s.status, s.prefill := Waiting, true;
      manager.Deallocate(s);
      s.draft := 0;
      waiting := waiting + [s];
      assert Views(waiting) == y.waiting + [Preempted(r)];
      assert Views(running) == y.running;
    }

    /** The state in which the decode loop works: the row s in hand, `done` planned. */
    ghost predicate Making(s: Sequence, done: seq<Sequence>)
      reads this, manager, waiting, running, done, s
    {
      && Tidy(done + [s]) && Common(c, View(), Views(done) + [s.View()]) && NoChunk(View())
      && AllDecoding(Views(running)) && Decoding(s.View())
    }

    /** The partial prefill gives its blocks back first. */
    method ReclaimHead(s: Sequence, ghost done: seq<Sequence>)
      requires Making(s, done) && mid != null && !manager.CanAppend(s)
      modifies this`waiting, this`mid, manager, Repr
      ensures Making(s, done) && mid == null
      ensures s.View() == old(s.View()) && Views(done) == old(Views(done))
      ensures Scheduling.MakeRoom(c, old(View()), s.View()) == Scheduling.MakeRoom(c, View(), s.View())
      ensures manager.lease == old(manager.lease)
    {
      hide Common, NoChunk, AllDecoding, Decoding, Scheduling.MakeRoom, Scheduling.Preempt, Separate, MidConsistent;
      ghost var y, cur, extra, w := View(), s.View(), Views(done) + [s.View()], waiting;
      HeadInHand(c, waiting, running, done + [s], mid, y, extra);
      ReclaimHeadStep(c, y, cur, extra);
      var h := waiting[0];
      waiting := waiting[1..];
      assert View() == y.(waiting := y.waiting[1..]);
      Preempt(h);
      assert Views(done) + [s.View()] == extra;
      Requeued(w, running, done + [s], 0, waiting);
    }

    /** Then the youngest decoder. */
    method ReclaimYoungest(s: Sequence, ghost done: seq<Sequence>)
      requires Making(s, done) && mid == null && running != [] && !manager.CanAppend(s)
      modifies this`waiting, this`running, this`mid, manager, Repr
      ensures Making(s, done) && mid == null && |running| == old(|running|) - 1
      ensures s.View() == old(s.View()) && Views(done) == old(Views(done))
      ensures Scheduling.MakeRoom(c, old(View()), s.View()) == Scheduling.MakeRoom(c, View(), s.View())
      ensures manager.lease == old(manager.lease)
    {
      hide Common, NoChunk, AllDecoding, Decoding, Scheduling.MakeRoom, Scheduling.Preempt, Separate, MidConsistent;
      ghost var y, cur, extra, w := View(), s.View(), Views(done) + [s.View()], waiting;
      var last := |running| - 1;
      LastInHand(waiting, running, done + [s]);
      ReclaimLastStep(c, y, cur, extra);
      var victim := running[last];
      running := running[..last];
      assert View() == y.(running := y.running[..last]);
      Preempt(victim);
      assert Views(done) + [s.View()] == extra;
      Moved(w, old(running), done + [s], waiting, running);
    }

    /** At last the row itself: nothing else is left to reclaim. */
    method GiveUp(s: Sequence, ghost done: seq<Sequence>)
      requires Making(s, done) && mid == null && running == [] && !manager.CanAppend(s)
      modifies this`waiting, this`mid, manager, Repr
      ensures Tidy(done) && waiting == old(waiting) + [s] && running == [] && mid == null
      ensures Views(done) == old(Views(done))
      ensures Scheduling.MakeRoom(c, old(View()), old(s.View())) == Ok(Room(View(), false))
      ensures manager.lease == old(manager.lease)
    {
      hide Common, NoChunk, AllDecoding, Decoding, Scheduling.MakeRoom, Scheduling.Preempt, Separate, MidConsistent;
      ghost var y, cur, w := View(), s.View(), waiting;
      HandApart(waiting, running, done, s);
      ReclaimSelfStep(c, y, cur, Views(done));
      assert Views(running) == [];
      Preempt(s);
      JoinsWaiting(w, running, done, s);
    }

    /** Reclaim blocks until the row in hand can append: the partial prefill first, then
        the youngest decoders, at last the row itself. */
    method MakeRoomFor(s: Sequence, ghost done: seq<Sequence>) returns (found: bool)
      requires Making(s, done)
      modifies this`waiting, this`running, this`mid, manager, Repr
      ensures Scheduling.MakeRoom(c, old(View()), old(s.View())) == Ok(Room(View(), found))
      ensures found ==> s.View() == old(s.View()) && Making(s, done) && manager.CanAppend(s)
      ensures !found ==> Tidy(done) && s in waiting
      ensures Views(done) == old(Views(done)) && |running| <= old(|running|)
      ensures manager.lease == old(manager.lease)
    {
      hide Common, NoChunk, AllDecoding, Decoding, Scheduling.MakeRoom, Separate;
      ghost var y0, cur, v := View(), s.View(), Views(done);
      while !manager.CanAppend(s)
        invariant Making(s, done) && s.View() == cur && Views(done) == v
        invariant Scheduling.MakeRoom(c, y0, cur) == Scheduling.MakeRoom(c, View(), cur)
        invariant |running| <= old(|running|)
        invariant manager.lease == old(manager.lease)
        decreases if mid != null then 1 else 0, |running|
      {
        if mid != null {
          ReclaimHead(s, done);
        } else if running != [] {
          ReclaimYoungest(s, done);
        } else {
          GiveUp(s, done);
          return false;
        }
      }
      RoomFound(c, View(), cur);
      found := true;
    }

    /** The row in hand decodes its next position. */
    method PlanRow(s: Sequence, ghost done: seq<Sequence>)
      requires Making(s, done) && manager.CanAppend(s)
      modifies manager, Repr
      ensures var (p, row) := Allocator.MayAppend(c, old(manager.View()), old(s.View()).(sched := 1, prefill := false));
        View() == old(View()).(pool := p) && s.View() == row
      ensures Views(done) == old(Views(done)) && manager.lease == old(manager.lease)
    {
      hide Common, NoChunk, AllDecoding, Decoding, Separate, Allocator.MayAppend;
      PoolOk(c, View(), Views(done) + [s.View()]);
      HandApart(waiting, running, done, s);
      ghost var y, v := View(), Views(done);
      s.sched, s.prefill := 1, false;
      manager.MayAppend(s);
      assert Views(done) == v;
      assert Views(waiting) == y.waiting && Views(running) == y.running;
    }

    /** Ongoing decodes first, front to back. */
    method DecodeLoop() returns (done: seq<Sequence>)
      requires Tidy([]) && Idle(c, View())
      modifies this`waiting, this`running, this`mid, manager, Repr
      ensures Scheduling.DecodePhase(c, old(View()), []) == Ok(Decoded(View(), Views(done)))
      ensures Tidy(done) && manager.lease == old(manager.lease)
      ensures Common(c, View(), Views(done)) && NoChunk(View()) && running == [] && AllPlanned(Views(done))
    {
      hide Common, NoChunk, AllDecoding, AllPlanned, Decoding, Separate, Scheduling.DecodePhase, Scheduling.MakeRoom;
      ghost var y0 := View();
      done := [];
      IdleParts(c, y0);
      assert Views(done) == [];
      while running != [] && |done| < c.maxSeqs
        invariant Tidy(done) && manager.lease == old(manager.lease)
        invariant Common(c, View(), Views(done)) && NoChunk(View()) && AllDecoding(Views(running)) && AllPlanned(Views(done))
        invariant Scheduling.DecodePhase(c, y0, []) == Scheduling.DecodePhase(c, View(), Views(done))
        decreases |running|
      {
        done := DecodeOne(done);
      }
      DecodeEnds(c, View(), Views(done));
    }

    method DecodeOne(done: seq<Sequence>) returns (done': seq<Sequence>)
      requires Tidy(done) && running != [] && |done| < c.maxSeqs
      requires Common(c, View(), Views(done)) && NoChunk(View()) && AllDecoding(Views(running)) && AllPlanned(Views(done))
      modifies this`waiting, this`running, this`mid, manager, Repr
      ensures Tidy(done') && |running| < old(|running|) && manager.lease == old(manager.lease)
      ensures Common(c, View(), Views(done')) && NoChunk(View()) && AllDecoding(Views(running)) && AllPlanned(Views(done'))
      ensures Scheduling.DecodePhase(c, old(View()), old(Views(done))) == Scheduling.DecodePhase(c, View(), Views(done'))
    {
      hide Common, NoChunk, AllDecoding, AllPlanned, Decoding, Separate, Scheduling.DecodePhase, Scheduling.MakeRoom, Allocator.MayAppend;
      ghost var y, v := View(), Views(done);
      var s := running[0];
      FrontInHand(c, waiting, running, done, y, v);
      running := running[1..];
      assert View() == y.(running := y.running[1..]) && s.View() == y.running[0];
      assert Views(done) == v;
      var found := MakeRoomFor(s, done);
      DecodeStep(c, y, v, View(), found);
      if found {
        PlanRow(s, done);
        done' := done + [s];
        assert Views(done') == v + [s.View()];
      } else {
        done' := done;
      }
    }

    /** Give the waiting head as much of its prompt as the remaining budget allows. */
    method PlaceHeadInPlace(remaining: nat) returns (o: Outcome)
      requires Tidy([]) && Common(c, View(), []) && NoChunk(View()) && waiting != [] && remaining >= 1
      modifies manager, waiting[0]
      ensures var r := Scheduling.Place(c, old(manager.View()), old(waiting[0].View()), remaining);
        match o
        case Took(work) => r == Placement.Placed(manager.View(), waiting[0].View(), work)
        case Refused => r == NotAdmitted && manager.View() == old(manager.View()) && waiting[0].View() == old(waiting[0].View())
        case Stuck => r == NoBlocks && manager.View() == old(manager.View()) && waiting[0].View() == old(waiting[0].View())
      ensures manager.lease == old(manager.lease)
    {
      var s := waiting[0];
      HeadFacts(c, View(), remaining);
      hide Common, NoChunk, Wf, Scheduling.Place;
      if s.table == [] { o := PlaceFreshHead(s, remaining); } else { o := PlacePartialHead(s, remaining); }
    }

    /** Whole-request admission, then blocks for the scheduled part only. */
    method PlaceFreshHead(s: Sequence, remaining: nat) returns (o: Outcome)
      requires c.Valid() && manager.c == c && Wf(manager.View()) && s.table == [] && s.sched == 0 && remaining >= 1
      requires Scheduling.Place(c, manager.View(), s.View(), remaining) == NotAdmitted
            || Scheduling.Place(c, manager.View(), s.View(), remaining).Placed?
      requires var hits := Allocator.CanAllocate(c, manager.View(), s.View()); hits.Some? ==> hits.value * c.blockSize < |s.toks|
      modifies manager, s
      ensures var r := Scheduling.Place(c, old(manager.View()), old(s.View()), remaining);
        match o
        case Took(work) => r == Placement.Placed(manager.View(), s.View(), work)
        case Refused => r == NotAdmitted && manager.View() == old(manager.View()) && s.View() == old(s.View())
        case Stuck => false
      ensures manager.lease == old(manager.lease)
    {
      hide Wf, Scheduling.Place, Allocator.CanAllocate, Allocator.AllocateIncremental;
      ghost var p, row := manager.View(), s.View();
      assert IndexAgrees(p) by { WfParts(p); }
      var hits := manager.CanAllocate(s);
      PlaceFreshIs(c, p, row, remaining);
      if hits.None? { return Outcome.Refused; }
      var nc := hits.value;
      var work := |s.toks| - nc * c.blockSize;
      s.sched := Min(work, remaining);
      var a := manager.AllocateIncremental(s, nc, nc * c.blockSize + s.sched);
      o := Took(work);
    }

    /** The partial prefill goes on when the pool can hold its next chunk. */
    method PlacePartialHead(s: Sequence, remaining: nat) returns (o: Outcome)
      requires c.Valid() && manager.c == c && Wf(manager.View()) && s.table != [] && s.sched == 0 && remaining >= 1
      requires s.cached < |s.toks|
      requires var r := Scheduling.Place(c, manager.View(), s.View(), remaining); r == NotAdmitted || r == NoBlocks || r.Placed?
      modifies manager, s
      ensures var r := Scheduling.Place(c, old(manager.View()), old(s.View()), remaining);
        match o
        case Took(work) => r == Placement.Placed(manager.View(), s.View(), work)
        case Refused => false
        case Stuck => r == NoBlocks && manager.View() == old(manager.View()) && s.View() == old(s.View())
      ensures manager.lease == old(manager.lease)
    {
      hide Wf, Scheduling.Place, Allocator.Extend;
      ghost var p, row := manager.View(), s.View();
      PlacePartialIs(c, p, row, remaining);
      var work := |s.toks| - s.cached;
      s.sched := Min(work, remaining);
      var a := manager.Extend(s, s.cached + s.sched);
      if a == Short {
        s.sched := 0;
        return Stuck;
      }
      o := Took(work);
    }

    /** The state in which the fill loop works: everything running is scheduled. */
    ghost predicate Filler(batch: seq<Sequence>, tokens: nat)
      reads this, manager, waiting, running
    {
      Tidy([]) && Filling(c, View(), IdsOf(batch), tokens)
    }

    /** The waiting head gives its blocks back and requeues last. */
    method RequeueHead()
      requires Tidy([]) && waiting != [] && mid == waiting[0]
      requires forall k :: 0 <= k < |waiting[0].table| ==> waiting[0].table[k] < |manager.blocks|
      requires Scheduling.Preempt(View().(waiting := Views(waiting)[1..]), waiting[0].View()).Ok?
      modifies this`waiting, this`mid, manager, waiting[0]
      ensures Scheduling.Preempt(old(View().(waiting := Views(waiting)[1..])), old(waiting[0].View())) == Ok(View())
      ensures Tidy([]) && manager.lease == old(manager.lease)
    {
      hide Scheduling.Preempt, Separate;
      ghost var y, w := View(), waiting;
      var h := waiting[0];
      HeadApart(waiting, running);
      waiting := waiting[1..];
      assert View() == y.(waiting := y.waiting[1..]);
      Preempt(h);
      Requeued(w, running, [], 0, waiting);
    }

    /** The waiting head, scheduled to the end of its prompt, starts running. */
    method AdmitHead()
      requires Tidy([]) && waiting != [] && (mid != null ==> mid == waiting[0])
      modifies this`waiting, this`running, this`mid, waiting[0]
      ensures manager.View() == old(manager.View()) && mid == null && |waiting| < old(|waiting|)
      ensures Views(waiting) == old(Views(waiting))[1..]
      ensures Views(running) == old(Views(running)) + [old(waiting[0].View()).(status := Running)]
      ensures Tidy([])
    {
      hide Separate;
      ghost var w, r, vw, vr := waiting, running, Views(waiting), Views(running);
      var s := waiting[0];
      HeadApart(waiting, running);
      if s == mid { mid := null; }
      s.status := Running;
      waiting := waiting[1..];
      running := running + [s];
      assert Views(waiting) == vw[1..];
      assert Views(running) == vr + [s.View()];
      HeadRuns(w, r);
    }

    /** The placed head runs when its prompt is scheduled to the end, else it is the
        partial prefill. */
    method KeepHead() returns (whole: bool)
      requires Tidy([]) && waiting != [] && (mid != null ==> mid == waiting[0])
      modifies this`waiting, this`running, this`mid, waiting[0]
      ensures var row := old(waiting[0].View());
        && whole == (row.cached + row.sched == |row.toks|)
        && View() == if whole
             then Sys(old(manager.View()), old(Views(waiting))[1..], old(Views(running)) + [row.(status := Running)], None)
             else Sys(old(manager.View()), [row] + old(Views(waiting))[1..], old(Views(running)), Some(row.id))
      ensures Tidy([]) && (whole ==> |waiting| < old(|waiting|))
    {
      hide Separate;
      var s := waiting[0];
      if s.cached + s.sched == |s.toks| {
        AdmitHead();
        whole := true;
      } else {
        assert Views(waiting) == [s.View()] + Views(waiting)[1..];
        mid := s;
        whole := false;
      }
    }

    /** The end of a round whose head was placed. */
    method FinishRound(batch: seq<Sequence>, tokens: nat, ghost y: Sys, ghost work: int)
      returns (batch': seq<Sequence>, tokens': nat, stop: bool)
      requires Tidy([]) && waiting != [] && (mid != null ==> mid == waiting[0])
      requires y.waiting != [] && |batch| < c.maxSeqs && tokens < c.budget && Filling(c, y, IdsOf(batch), tokens)
      requires Views(waiting) == [waiting[0].View()] + y.waiting[1..] && Views(running) == y.running
      requires Scheduling.Place(c, y.pool, y.waiting[0], c.budget - tokens) == Placement.Placed(manager.View(), waiting[0].View(), work)
      modifies this`waiting, this`running, this`mid, waiting[0]
      ensures Tidy([]) && manager.lease == old(manager.lease)
      ensures !stop ==> Filler(batch', tokens') && |waiting| < old(|waiting|)
      ensures !stop ==> Scheduling.FillPhase(c, y, IdsOf(batch), tokens) == Scheduling.FillPhase(c, View(), IdsOf(batch'), tokens')
      ensures stop ==> Scheduling.FillPhase(c, y, IdsOf(batch), tokens) == Ok(Filled(View(), IdsOf(batch')))
    {
      hide Filling, Separate, Scheduling.FillPhase, Scheduling.Place;
      var s := waiting[0];
      FillTook(c, y, IdsOf(batch), tokens, manager.View(), s.View(), work);
      tokens' := tokens + s.sched;
      batch' := batch + [s];
      assert IdsOf(batch') == IdsOf(batch) + [s.id];
      assert Views(waiting)[1..] == y.waiting[1..];
      var whole := KeepHead();
      stop := !whole;
    }

    /** One round of chunked prefill. */
    method FillOne(batch: seq<Sequence>, tokens: nat) returns (batch': seq<Sequence>, tokens': nat, stop: bool)
      requires Filler(batch, tokens) && waiting != [] && |batch| < c.maxSeqs && tokens < c.budget
      modifies this`waiting, this`running, this`mid, manager, Repr
      ensures Tidy([]) && manager.lease == old(manager.lease)
      ensures !stop ==> Filler(batch', tokens') && |waiting| < old(|waiting|)
      ensures !stop ==> Scheduling.FillPhase(c, old(View()), IdsOf(batch), tokens) == Scheduling.FillPhase(c, View(), IdsOf(batch'), tokens')
      ensures stop ==> Scheduling.FillPhase(c, old(View()), IdsOf(batch), tokens) == Ok(Filled(View(), IdsOf(batch')))
    {
      hide Common, NoChunk, Filling, Separate, Scheduling.FillPhase, Scheduling.Place, Scheduling.Preempt;
      ghost var y := View();
      FillingCommon(c, y, IdsOf(batch), tokens);
      MidIsHead(c, waiting, mid, y);
      batch', tokens', stop := batch, tokens, true;
      var s := waiting[0];
      HeadApart(waiting, running);
      var o := PlaceHeadInPlace(c.budget - tokens);
      assert Views(waiting) == [s.View()] + y.waiting[1..];
      assert Views(running) == y.running;
      match o
      case Refused =>
        FillRefused(c, y, IdsOf(batch), tokens);
        assert View() == y;
      case Stuck =>
        FillStuck(c, y, IdsOf(batch), tokens);
        assert View() == y;
        RequeueHead();
      case Took(work) =>
        batch', tokens', stop := FinishRound(batch, tokens, y, work);
    }

    /** Fill the remaining budget first come, first served. */
    method FillLoop(batch: seq<Sequence>, tokens: nat) returns (batch': seq<Sequence>)
      requires Filler(batch, tokens)
      modifies this`waiting, this`running, this`mid, manager, Repr
      ensures Tidy([]) && manager.lease == old(manager.lease)
      ensures Scheduling.FillPhase(c, old(View()), IdsOf(batch), tokens) == Ok(Filled(View(), IdsOf(batch')))
    {
      hide Filling, Separate, Scheduling.FillPhase;
      ghost var y0, ids0 := View(), IdsOf(batch);
      batch' := batch;
      var used: nat, stop := tokens, false;
      while !stop && waiting != [] && |batch'| < c.maxSeqs && used < c.budget
        invariant Tidy([]) && manager.lease == old(manager.lease)
        invariant !stop ==> Filler(batch', used)
        invariant !stop ==> Scheduling.FillPhase(c, y0, ids0, tokens) == Scheduling.FillPhase(c, View(), IdsOf(batch'), used)
        invariant stop ==> Scheduling.FillPhase(c, y0, ids0, tokens) == Ok(Filled(View(), IdsOf(batch')))
        decreases !stop, |waiting|
      {
        batch', used, stop := FillOne(batch', used);
      }
      if !stop { FillEnds(c, View(), IdsOf(batch'), used); }
    }

    /** One scheduling decision. Only an empty engine has nothing to schedule. */
    method Schedule() returns (batch: seq<Sequence>, prefill: bool)
      requires Tidy([]) && Idle(c, View())
      modifies this`waiting, this`running, this`mid, manager, Repr
      ensures Tidy([]) && manager.lease == old(manager.lease)
      ensures Scheduling.Schedule(c, old(View())) ==
        if batch == [] then Err(NothingPending) else Ok(Scheduled(View(), IdsOf(batch), prefill))
    {
      hide Idle, Filling, Separate, Scheduling.FillPhase, Scheduling.DecodePhase, Common, NoChunk, AllPlanned, MidConsistent;
      ghost var y := View();
      var done := DecodeLoop();
      ghost var y1 := View();
      JoinRunning(waiting, done);
      running := done + running;
      assert Views(running) == Views(done) + y1.running;
      IdsAre(done);
      ScheduleRuns(c, y, y1, Views(done));
      batch := FillLoop(done, |done|);
      prefill := |batch| > |done|;
    }

    // ----- the ordinary commit -----

    /** A finished row gives its blocks back. */
    method Retire(s: Sequence)
      requires forall k :: 0 <= k < |s.table| ==> s.table[k] < |manager.blocks|
      modifies manager`blocks, manager`free, manager`used, manager`index, s
      ensures manager.View() == Release(old(manager.View()), old(s.table))
      ensures s.View() == Cleared(old(s.View())).(status := Finished) && |manager.blocks| == old(|manager.blocks|)
    {
      hide Release;
      s.status := Finished;
      ReleaseSize(manager.View(), s.table);
      manager.Deallocate(s);
    }

    /** Commit the token of one row: publish, advance, emit when complete, retire. */
    method CommitRow(s: Sequence, token: Token) returns (ev: seq<Event>)
      requires c.Valid() && manager.c == c && Committable(c, manager.View(), s.View())
      modifies manager`blocks, manager`free, manager`used, manager`index, s
      ensures PostRow(c, old(manager.View()), old(s.View()), token) == Posted(manager.View(), s.View(), ev)
      ensures |manager.blocks| == old(|manager.blocks|)
    {
      hide Allocator.HashBlocks, Release, CeilDiv;
      PostRowIs(c, manager.View(), s.View(), token);
      HashSize(c, manager.View(), s.View());
      manager.HashBlocks(s);
      s.cached, s.sched := s.cached + s.sched, 0;
      if s.cached < |s.toks| { return []; }
      s.AppendToken(token);
      var finished := (!s.ignoreEos && token == c.eos) || |s.toks| - s.prompt >= s.maxTokens;
      if finished { Retire(s); }
      ev := [Event(s.id, token, finished)];
    }

    /** Commit one running row; a finished one leaves the queue. */
    method CommitNext(s: Sequence, token: Token, ghost alive: seq<Sequence>, ghost rest: seq<Sequence>) returns (ev: seq<Event>)
      requires c.Valid() && manager.c == c && Committable(c, manager.View(), s.View())
      requires running == alive + ([s] + rest) && Separate(running)
      modifies this`running, manager`blocks, manager`free, manager`used, manager`index, s
      ensures PostRow(c, old(manager.View()), old(s.View()), token) == Posted(manager.View(), s.View(), ev)
      ensures |manager.blocks| == old(|manager.blocks|)
      ensures running == (if s.status == Finished then alive + rest else old(running)) && Separate(running)
      ensures Views(alive) == old(Views(alive)) && Views(rest) == old(Views(rest))
    {
      hide PostRow, Committable, Separate;
      MiddleApart(alive, s, rest);
      ghost var va, vr := Views(alive), Views(rest);
      ev := CommitRow(s, token);
      assert Views(alive) == va && Views(rest) == vr;
      if s.status == Finished {
        DropIs(alive, s, rest);
        running := Drop(running, s);
      }
    }

    /** Rows ..i of the batch are committed, into `done` and `ev`; `alive` still run. */
    ghost predicate Committing(batch: seq<Sequence>, i: nat, p0: Pool, v0: seq<Row>, tokens: seq<Token>,
                               alive: seq<Sequence>, done: seq<Row>, ev: seq<Event>)
      requires c.Valid() && |v0| == |tokens| == |batch|
      reads this, manager, batch, alive
    {
      && i <= |batch| && Posting(c, p0, v0, tokens, manager.View(), i, done, ev)
      && Views(batch[i..]) == v0[i..] && |manager.blocks| == |p0.blocks|
      && running == alive + batch[i..] && Separate(running) && Views(alive) == Surviving(done)
      && forall x :: x in alive ==> x in batch
    }

    method CommitAt(batch: seq<Sequence>, i: nat, token: Token, ghost p0: Pool, ghost v0: seq<Row>, ghost tokens: seq<Token>,
                    ghost alive: seq<Sequence>, ghost done: seq<Row>, ev: seq<Event>)
      returns (ev': seq<Event>, ghost alive': seq<Sequence>, ghost done': seq<Row>)
      requires c.Valid() && manager.c == c && |v0| == |tokens| == |batch| && i < |batch| && token == tokens[i]
      requires Committing(batch, i, p0, v0, tokens, alive, done, ev) && Committable(c, p0, v0[i])
      modifies this`running, manager`blocks, manager`free, manager`used, manager`index, batch
      ensures Committing(batch, i + 1, p0, v0, tokens, alive', done', ev')
    {
      hide PostRow, PostRows, Surviving, Committable, Posting, Separate;
      var s := batch[i];
      ghost var rest, kept := batch[i + 1..], Views(alive);
      assert batch[i..] == [s] + rest && s.View() == Views(batch[i..])[0] == v0[i];
      assert Views(rest) == v0[i + 1..] by { assert Views(rest) == Views(batch[i..])[1..]; }
      PostingStep(c, p0, v0, tokens, manager.View(), i, done, ev);
      CommittableSize(c, p0, manager.View(), v0[i]);
      var e := CommitNext(s, token, alive, rest);
      SurvivingAppend(done, s.View());
      done' := done + [s.View()];
      ev' := ev + e;
      if s.status != Finished {
        Shift(alive, s, rest);
        alive' := alive + [s];
        assert Views(alive') == kept + [s.View()];
      } else {
        alive' := alive;
        assert kept + [] == kept;
      }
    }

    /** Commit the running rows front to back. */
    method CommitRunning(tokens: seq<Token>) returns (ev: seq<Event>)
      requires c.Valid() && manager.c == c && |tokens| == |running| && Separate(running)
      requires forall i :: 0 <= i < |running| ==> Committable(c, manager.View(), Views(running)[i])
      modifies this`running, manager`blocks, manager`free, manager`used, manager`index, running
      ensures var r := PostRows(c, old(manager.View()), old(Views(running)), tokens);
        manager.View() == r.pool && Views(running) == Surviving(r.rows) && ev == r.events
      ensures |manager.blocks| == old(|manager.blocks|)
      ensures Separate(running) && forall x :: x in running ==> x in old(running)
    {
      hide PostRow, PostRows, Surviving, Committable, Posting, Separate;
      ghost var p0, v0 := manager.View(), Views(running);
      var batch := running;
      ghost var done: seq<Row> := [];
      ghost var alive: seq<Sequence> := [];
      ev := [];
      PostingStart(c, p0, v0, tokens);
      assert batch[0..] == batch && [] + batch == batch && v0[0..] == v0;
      assert Committing(batch, 0, p0, v0, tokens, alive, done, ev);
      hide Committing;
      var i := 0;
      while i < |batch|
        invariant i <= |batch| && Committing(batch, i, p0, v0, tokens, alive, done, ev)
      {
        ev, alive, done := CommitAt(batch, i, tokens[i], p0, v0, tokens, alive, done, ev);
        i := i + 1;
      }
      CommittingEnds(batch, p0, v0, tokens, alive, done, ev);
    }

    lemma CommittingEnds(batch: seq<Sequence>, p0: Pool, v0: seq<Row>, tokens: seq<Token>,
                         alive: seq<Sequence>, done: seq<Row>, ev: seq<Event>)
      requires c.Valid() && |v0| == |tokens| == |batch| && Committing(batch, |batch|, p0, v0, tokens, alive, done, ev)
      ensures PostRows(c, p0, v0, tokens) == PostedAll(manager.View(), done, ev)
      ensures Views(running) == Surviving(done) && |manager.blocks| == |p0.blocks| && Separate(running)
      ensures forall x :: x in running ==> x in batch
    {
      hide PostRows, Surviving, Separate;
      PostingEnd(c, p0, v0, tokens, manager.View(), done, ev);
      assert running == alive;
    }

    /** Record the staged draft coverage of the rows that still run. */
    method Cover(staged: Coverage)
      requires Separate(running)
      modifies running
      ensures Views(running) == Covered(old(Views(running)), staged)
    {
      ghost var v0 := Views(running);
      ghost var done: seq<Row> := [];
      var i := 0;
      while i < |running|
        invariant i <= |running| && |done| == i
        invariant forall k :: 0 <= k < i ==> done[k] == if v0[k].id in staged then v0[k].(draft := staged[v0[k].id]) else v0[k]
        invariant forall k :: 0 <= k < i ==> running[k].View() == done[k]
        invariant forall k :: i <= k < |running| ==> running[k].View() == v0[k]
      {
        var s := running[i];
        if s.id in staged { s.draft := staged[s.id]; }
        done := done + [s.View()];
        i := i + 1;
      }
      assert Views(running) == done == Covered(v0, staged);
    }

    method CoverQueue(staged: Coverage)
      requires Tidy([])
      modifies Repr
      ensures Tidy([]) && View() == old(View()).(running := Covered(old(Views(running)), staged))
    {
      hide Separate, Covered;
      ghost var w := Views(waiting);
      QueuesApart(waiting, running);
      Cover(staged);
      assert Views(waiting) == w;
    }

    /** Commit the scheduled chunk of the waiting head. */
    method CommitHead(token: Token) returns (ev: seq<Event>)
      requires Tidy([]) && waiting != [] && Committable(c, manager.View(), waiting[0].View())
      modifies manager`blocks, manager`free, manager`used, manager`index, waiting[0]
      ensures Tidy([])
      ensures var y := old(View());
        var r := PostRow(c, y.pool, y.waiting[0], token);
        View() == y.(pool := r.pool, waiting := [r.row] + y.waiting[1..]) && ev == r.events
    {
      hide PostRow, Committable, Separate;
      ghost var y := View();
      var s := waiting[0];
      HeadApart(waiting, running);
      ev := CommitRow(s, token);
      assert Views(waiting) == [s.View()] + y.waiting[1..];
      assert Views(running) == y.running;
    }

    /** Commit the running rows, then the scheduled chunk of the waiting head. */
    method CommitQueues(tokens: seq<Token>, chunk: bool, ghost ids: seq<nat>) returns (ev: seq<Event>)
      requires Tidy([]) && States.Ready(c, View(), ids)
      requires chunk == (ChunkRows(View()) != []) && |tokens| == |running| + |ChunkRows(View())|
      modifies this`running, manager`blocks, manager`free, manager`used, manager`index, Repr
      ensures Tidy([])
      ensures var y := old(View());
        var ra := PostRows(c, y.pool, y.running, tokens[..|y.running|]);
        var rb := PostRows(c, ra.pool, ChunkRows(y), tokens[|y.running|..]);
        && View() == Sys(rb.pool, rb.rows + y.waiting[|ChunkRows(y)|..], Surviving(ra.rows), y.mid)
        && ev == ra.events + rb.events
    {
      hide States.Ready, PostRows, PostRow, Surviving, Committable, Separate;
      ghost var y, r0 := View(), running;
      var n := |running|;
      ReadyCommittable(c, y, ids);
      QueuesApart(waiting, running);
      ev := CommitRunning(tokens[..n]);
      ghost var ra := PostRows(c, y.pool, y.running, tokens[..n]);
      Thinned(waiting, r0, running);
      assert Views(waiting) == y.waiting;
      if chunk {
        CommittableSize(c, y.pool, manager.View(), y.waiting[0]);
        PostOne(c, ra.pool, y.waiting[0], tokens[n..]);
        var e := CommitHead(tokens[n]);
        ev := ev + e;
      } else {
        PostNone(c, ra.pool, tokens[n..]);
        assert y.waiting[0..] == y.waiting && [] + y.waiting == y.waiting;
        assert ev + [] == ev;
      }
    }

    /** The commit after a forward pass: one token per scheduled row. */
    method Postprocess(tokens: seq<Token>, staged: Coverage, ghost ids: seq<nat>) returns (r: Option<seq<Event>>)
      requires Tidy([]) && States.Ready(c, View(), ids)
      modifies this`running, manager`blocks, manager`free, manager`used, manager`index, Repr
      ensures Tidy([])
      ensures match Commit.Postprocess(c, old(View()), tokens, staged)
        case PostOk(y, ev) => r == Some(ev) && View() == y
        case PostErr(_) => r == None && View() == old(View())
    {
      hide States.Ready, PostRows, PostRow, Surviving, Covered, Separate, Commit.Postprocess, InVocabulary;
      ghost var y := View();
      PostRefusals(c, y, tokens, staged);
      var n := |running|;
      var chunk := waiting != [] && waiting[0].sched > 0;
      if |tokens| != n + (if chunk then 1 else 0) { return None; }
      var i := 0;
      while i < |tokens|
        invariant i <= |tokens| && forall k :: 0 <= k < i ==> InVocabulary(c, tokens[k])
      {
        if !InVocabulary(c, tokens[i]) { return None; }
        i := i + 1;
      }
      PostprocessSplits(c, y, tokens, staged);
      var ev := CommitQueues(tokens, chunk, ids);
      CoverQueue(staged);
      r := Some(ev);
    }

    // ----- cancellation -----

    /** Remove the named requests of one queue, each after its blocks are released. */
    method CancelIn(queue: seq<Sequence>, targets: set<nat>) returns (kept: seq<Sequence>, ids: seq<nat>)
      requires Separate(queue) && forall i :: 0 <= i < |queue| ==> InRange(manager.View(), Views(queue)[i])
      modifies manager`blocks, manager`free, manager`used, manager`index, queue
      ensures var r := CancelQueue(old(manager.View()), old(Views(queue)), targets);
        manager.View() == r.pool && Views(kept) == r.kept && ids == r.ids
      ensures |manager.blocks| == old(|manager.blocks|)
      ensures Separate(kept) && forall x :: x in kept ==> x in queue && x.id !in targets
      ensures forall x :: x in queue && x.id !in targets ==> x in kept
    {
      hide CancelQueue, Cancelling, InRange;
      ghost var p0, v0 := manager.View(), Views(queue);
      kept, ids := [], [];
      CancelStart(p0, v0, targets);
      assert Views([]) == [];
      var i := 0;
      while i < |queue|
        invariant i <= |queue| && |manager.blocks| == |p0.blocks|
        invariant Cancelling(p0, v0, targets, manager.View(), i, Views(kept), ids)
        invariant forall k :: i <= k < |queue| ==> queue[k].View() == v0[k]
        invariant Separate(kept) && forall x :: x in kept ==> x in queue[..i] && x.id !in targets
        invariant forall x :: x in queue[..i] && x.id !in targets ==> x in kept
      {
        var s := queue[i];
        ghost var was := Views(kept);
        assert s !in queue[..i] && queue[..i + 1] == queue[..i] + [s];
        CancelStep(p0, v0, targets, manager.View(), i, was, ids);
        if s.id in targets {
          RangeSize(p0, manager.View(), v0[i]);
          ReleaseSize(manager.View(), s.table);
          if s.table != [] { manager.Deallocate(s); } else { ReleaseNothing(manager.View()); }
          s.sched, s.draft, s.status := 0, 0, Cancelled;
          ids := ids + [s.id];
          assert Views(kept) == was;
        } else {
          kept := kept + [s];
          assert Views(kept) == was + [s.View()];
        }
        i := i + 1;
      }
      assert queue[..|queue|] == queue;
      CancelEnd(p0, v0, targets, manager.View(), Views(kept), ids);
    }

    /** Both queues, waiting first; the fields still name the old queues. */
    method CancelBoth(targets: set<nat>) returns (w: seq<Sequence>, r: seq<Sequence>, ids: seq<nat>)
      requires Tidy([]) && Common(c, View(), [])
      modifies manager`blocks, manager`free, manager`used, manager`index, Repr
      ensures var y := old(View());
        var a := CancelQueue(y.pool, y.waiting, targets);
        var b := CancelQueue(a.pool, y.running, targets);
        manager.View() == b.pool && Views(w) == a.kept && Views(r) == b.kept && ids == a.ids + b.ids
      ensures Separate(w + r + []) && (forall x :: x in w ==> x in Repr) && (forall x :: x in r ==> x in Repr)
      ensures forall x :: x in waiting && x.id !in targets ==> x in w
      ensures mid != null && mid.id !in targets ==> mid in w
    {
      hide Common, CancelQueue, InRange, Separate;
      ghost var y := View();
      CommonInRange(c, y);
      QueuesApart(waiting, running);
      WaitingApart(waiting, running);
      var ws, rs;
      w, ws := CancelIn(waiting, targets);
      assert Views(running) == y.running;
      RangesSize(y.pool, manager.View(), y.running);
      ghost var vw := Views(w);
      NotIn(waiting, running, w);
      r, rs := CancelIn(running, targets);
      assert Views(w) == vw;
      KeptApart(waiting, running, w, r);
      ids := ws + rs;
    }

    /** Remove exactly the named queued requests; unknown ids are harmless. */
    method Remove(targets: set<nat>) returns (ids: seq<nat>)
      requires Tidy([]) && Common(c, View(), [])
      modifies this`waiting, this`running, this`mid, manager`blocks, manager`free, manager`used, manager`index, Repr
      ensures Requests.Cancel(old(View()), targets) == CancelOk(View(), ids) && Tidy([])
    {
      hide Common, CancelQueue, MidConsistent, Separate, Requests.Cancel;
      CancelSucceeds(c, View(), targets);
      var w, r, gone := CancelBoth(targets);
      Adopt(w, r, targets);
      ids := gone;
    }

    /** Install the queues that are left. */
    method Adopt(w: seq<Sequence>, r: seq<Sequence>, targets: set<nat>)
      requires c.Valid() && manager.c == c && Separate(w + r + []) && (forall x :: x in w ==> x in Repr) && (forall x :: x in r ==> x in Repr)
      requires mid != null && mid.id !in targets ==> mid in w
      modifies this`waiting, this`running, this`mid
      ensures Tidy([]) && View() == Sys(manager.View(), Views(w), Views(r),
                                        if old(View()).mid.Some? && old(View()).mid.value in targets then None else old(View()).mid)
    {
      hide Separate;
      if mid != null && mid.id in targets { mid := null; }
      waiting, running := w, r;
    }

    method AnyNamed(queue: seq<Sequence>, targets: set<nat>) returns (b: bool)
      ensures b <==> Includes(Views(queue), targets)
    {
      var i := 0;
      while i < |queue|
        invariant i <= |queue| && forall k :: 0 <= k < i ==> Views(queue)[k].id !in targets
      {
        assert Views(queue)[i].id == queue[i].id;
        if queue[i].id in targets { return true; }
        i := i + 1;
      }
      b := false;
    }

    /** Cancellation at any point between engine calls: a live transaction is aborted first,
        but only when a named request is queued. */
    method Cancel(targets: set<nat>, ghost base: Sys, ghost k: nat, ghost prepared: bool) returns (ids: seq<nat>)
      requires Tidy([])
      requires if manager.lease.None? then Common(c, View(), []) else Leased(c, base, View(), manager.lease.value, k, prepared)
      modifies this`waiting, this`running, this`mid, manager, Repr
      ensures Tidy([])
      ensures !NamesQueued(old(View()), targets) ==> ids == [] && View() == old(View()) && manager.lease == old(manager.lease)
      ensures NamesQueued(old(View()), targets) ==> manager.lease == None
      ensures NamesQueued(old(View()), targets) && old(manager.lease).None? ==>
        Requests.Cancel(old(View()), targets) == CancelOk(View(), ids)
      ensures NamesQueued(old(View()), targets) && old(manager.lease).Some? ==>
        var r := AbortSpeculative(c, old(View()), old(manager.lease).value);
        r.Undone? && Requests.Cancel(r.sys, targets) == CancelOk(View(), ids)
    {
      hide Common, Leased, AbortSpeculative, Requests.Cancel, Separate, Idle, NamesQueued, Includes;
      ghost var y := View();
      var inWaiting := AnyNamed(waiting, targets);
      var inRunning := AnyNamed(running, targets);
      NamedEither(y, targets);
      if !inWaiting && !inRunning { return []; }
      if manager.lease.Some? { AbortWhole(base, k, prepared); }
      ids := Remove(targets);
    }

    /** The abort of a live transaction succeeds and leaves the engine between steps. */
    method AbortWhole(ghost base: Sys, ghost k: nat, ghost prepared: bool)
      requires Tidy([]) && manager.lease.Some? && Leased(c, base, View(), manager.lease.value, k, prepared)
      modifies manager, Repr
      ensures Tidy([]) && manager.lease == None && Common(c, View(), [])
      ensures AbortSpeculative(c, old(View()), old(manager.lease).value) == Undone(View())
    {
      hide Common, Leased, AbortSpeculative, Separate, Idle;
      AbortKeeps(c, base, View(), manager.lease.value, k, prepared);
      var ok := Abort();
      IdleCommon(c, View());
    }

    // ----- the speculative transaction -----

    method AllRowsPlanned() returns (ok: bool)
      ensures ok <==> AllPlanned(Views(running))
    {
      ghost var v := Views(running);
      var i := 0;
      while i < |running|
        invariant i <= |running| && forall k :: 0 <= k < i ==> Planned(v[k])
      {
        var s := running[i];
        assert v[i] == s.View();
        if s.status != Running || s.prefill || s.sched != 1 || s.cached + 1 != |s.toks| { return false; }
        i := i + 1;
      }
      ok := true;
    }

    /** Promote a pure decode batch: derive the proposal length and lease its blocks. */
    method Plan(routeCap: nat, certified: bool) returns (k: nat, failed: bool)
      requires Tidy([]) && manager.lease.None?
      modifies manager, Repr
      ensures Tidy([])
      ensures match PlanSpeculative(c, old(View()), routeCap, certified)
        case Bypass => k == 0 && !failed && View() == old(View()) && manager.lease == None
        case Speculate(n, p, rows, l) =>
          k == n && !failed && View() == old(View()).(pool := p, running := rows) && manager.lease == Some(l)
        case PlanFailed(_) => k == 0 && failed && View() == old(View()) && manager.lease == None
    {
      hide Leases.Reserve, EffectiveK, AllPlanned, Separate;
      ghost var y := View();
      QueuesApart(waiting, running);
      var planned := AllRowsPlanned();
      if running == [] || !planned { return 0, false; }
      var n := EffectiveK(c, Views(running), routeCap);
      if n <= 0 || !certified { return 0, false; }
      var r := manager.Reserve(running, HighPositions(Views(running), n));
      assert Views(waiting) == y.waiting;
      if r == Granted { return n, false; }
      return 0, r != Denied;
    }

    /** Evict what the leased blocks cached, before target writes. */
    method PrepareWrites() returns (ok: bool)
      requires Tidy([])
      modifies manager`lease
      ensures ok <==> old(manager.lease.Some? && Live(manager.View(), Views(running), manager.lease.value))
      ensures manager.lease == if ok then Some(Prepare(old(manager.lease).value)) else old(manager.lease)
    {
      hide Live, Prepare;
      ok := manager.PrepareTargetWrites(running);
    }

    /** Release the proposal blocks before an ordinary target pass. */
    method Handoff() returns (ok: bool)
      requires Tidy([]) && manager.lease.Some?
      modifies manager, Repr
      ensures Tidy([])
      ensures match Leases.Rollback(old(manager.View()), old(Views(running)), old(manager.lease).value)
        case Settled(p, rows) => ok && View() == old(View()).(pool := p, running := rows) && manager.lease == None
        case Refused(_) => !ok && View() == old(View()) && manager.lease == old(manager.lease)
    {
      hide Leases.Rollback, Separate;
      ghost var w := Views(waiting);
      QueuesApart(waiting, running);
      ok := manager.Rollback(running);
      assert Views(waiting) == w;
    }

    /** Undo both reservation layers: the lease, then the scheduled appends. */
    method Abort() returns (ok: bool)
      requires Tidy([]) && manager.lease.Some?
      modifies manager, Repr
      ensures Tidy([])
      ensures match AbortSpeculative(c, old(View()), old(manager.lease).value)
        case Undone(y) => ok && View() == y && manager.lease == None
        case UndoRefused => !ok
    {
      hide Leases.Rollback, Separate, UndoAllowed, UndoAll;
      ok := Handoff();
      if ok { ok := UndoScheduled(); }
    }

    /** Undo the scheduled appends of a failed decode batch. */
    method UndoScheduled() returns (ok: bool)
      requires Tidy([])
      modifies manager`blocks, manager`free, manager`used, Repr
      ensures Tidy([])
      ensures match UndoSchedule(c, old(View()))
        case Undone(y) => ok && View() == y
        case UndoRefused => !ok && View() == old(View())
    {
      hide Separate, UndoAllowed, UndoAll;
      ghost var w := Views(waiting);
      QueuesApart(waiting, running);
      ok := manager.RollbackAppends(running);
      assert Views(waiting) == w;
    }

    /** The part of a verified burst that is committed. */
    method CutBurst(s: Sequence, burst: seq<Token>) returns (ts: seq<Token>)
      ensures ts == Cut(c, s.View(), burst)
    {
      ts := [];
      var i, stop := 0, false;
      CutStart(c, s.View(), burst);
      while i < |burst| && !stop
        invariant i <= |burst| && Cutting(c, s.View(), burst, i, ts, stop)
        decreases |burst| - i, !stop
      {
        CutStep(c, s.View(), burst, i, ts);
        if |s.toks| - s.prompt + |ts| >= s.maxTokens {
          stop := true;
        } else {
          ts := ts + [burst[i]];
          stop := !s.ignoreEos && burst[i] == c.eos;
          i := i + 1;
        }
      }
      CutEnd(c, s.View(), burst, i, ts, stop);
    }

    method AppendAll(s: Sequence, ts: seq<Token>)
      modifies s`toks
      ensures s.View() == old(s.View()).(toks := old(s.toks) + ts)
    {
      ghost var row := s.View();
      var i := 0;
      assert row.toks + ts[..0] == row.toks;
      while i < |ts|
        invariant i <= |ts| && s.View() == row.(toks := row.toks + ts[..i])
      {
        assert row.toks + ts[..i] + [ts[i]] == row.toks + ts[..i + 1];
        s.AppendToken(ts[i]);
        i := i + 1;
      }
      assert ts[..|ts|] == ts;
    }

    /** Commit one row's burst: append, publish, advance both coverages, retire. */
    method CommitBurst(s: Sequence, ts: seq<Token>, k: nat) returns (ev: seq<Event>)
      requires c.Valid() && manager.c == c && ts != [] && s.cached + 1 == |s.toks|
      requires Committable(c, manager.View(), Extended(s.View(), ts))
      modifies manager`blocks, manager`free, manager`used, manager`index, s
      ensures BurstRow(c, old(manager.View()), old(s.View()), ts, k) == Posted(manager.View(), s.View(), ev)
      ensures |manager.blocks| == old(|manager.blocks|)
    {
      hide Allocator.HashBlocks, Release, BurstEvents, Stops, CeilDiv, Full, BurstRow, DraftAfter;
      ghost var p, row := manager.View(), s.View();
      BurstRowShape(c, p, row, ts, k);
      HashSize(c, p, Extended(row, ts));
      var cached := |s.toks| + |ts| - 1;
      var draft := Min(cached, |s.toks| + k - 1);
      AppendAll(s, ts);
      s.sched := cached - s.cached;
      assert s.View() == Extended(row, ts);
      manager.HashBlocks(s);
      s.cached, s.draft, s.sched := cached, draft, 0;
      var finished := Stops(c, s.View());
      if finished { Retire(s); }
      ev := BurstEvents(s.id, ts, finished);
    }

    /** Commit one running row's burst; a finished row leaves the queue. */
    method BurstNext(s: Sequence, ts: seq<Token>, k: nat, ghost alive: seq<Sequence>, ghost rest: seq<Sequence>)
      returns (ev: seq<Event>)
      requires c.Valid() && manager.c == c && ts != [] && s.cached + 1 == |s.toks|
      requires Committable(c, manager.View(), Extended(s.View(), ts))
      requires running == alive + ([s] + rest) && Separate(running)
      modifies this`running, manager`blocks, manager`free, manager`used, manager`index, s
      ensures BurstRow(c, old(manager.View()), old(s.View()), ts, k) == Posted(manager.View(), s.View(), ev)
      ensures |manager.blocks| == old(|manager.blocks|)
      ensures running == (if s.status == Finished then alive + rest else old(running)) && Separate(running)
      ensures Views(alive) == old(Views(alive)) && Views(rest) == old(Views(rest))
    {
      hide BurstRow, Committable, Separate;
      MiddleApart(alive, s, rest);
      ghost var va, vr := Views(alive), Views(rest);
      ev := CommitBurst(s, ts, k);
      assert Views(alive) == va && Views(rest) == vr;
      if s.status == Finished {
        DropIs(alive, s, rest);
        running := Drop(running, s);
      }
    }

    /** Rows ..i of the burst are committed, into `done` and `ev`; `alive` still run. */
    ghost predicate Bursting(batch: seq<Sequence>, i: nat, p0: Pool, v0: seq<Row>, cuts: seq<seq<Token>>, k: nat,
                             alive: seq<Sequence>, done: seq<Row>, ev: seq<Event>)
      requires c.Valid() && |v0| == |cuts| == |batch|
      reads this, manager, batch, alive
    {
      && i <= |batch| && BurstTo(c, p0, v0, cuts, k, manager.View(), i, done, ev)
      && Views(batch[i..]) == v0[i..] && |manager.blocks| == |p0.blocks|
      && running == alive + batch[i..] && Separate(running) && Views(alive) == Surviving(done)
      && forall x :: x in alive ==> x in batch
    }

    method BurstAt(batch: seq<Sequence>, i: nat, ts: seq<Token>, k: nat, ghost p0: Pool, ghost v0: seq<Row>, ghost cuts: seq<seq<Token>>,
                   ghost alive: seq<Sequence>, ghost done: seq<Row>, ev: seq<Event>)
      returns (ev': seq<Event>, ghost alive': seq<Sequence>, ghost done': seq<Row>)
      requires c.Valid() && manager.c == c && |v0| == |cuts| == |batch| && i < |batch| && ts == cuts[i]
      requires Bursting(batch, i, p0, v0, cuts, k, alive, done, ev) && Burstable(c, p0, v0[i], cuts[i])
      modifies this`running, manager`blocks, manager`free, manager`used, manager`index, batch
      ensures Bursting(batch, i + 1, p0, v0, cuts, k, alive', done', ev')
    {
      hide BurstRow, BurstRows, Surviving, Committable, BurstTo, Separate;
      var s := batch[i];
      ghost var rest, kept := batch[i + 1..], Views(alive);
      assert batch[i..] == [s] + rest && s.View() == Views(batch[i..])[0] == v0[i];
      assert Views(rest) == v0[i + 1..] by { assert Views(rest) == Views(batch[i..])[1..]; }
      BurstToStep(c, p0, v0, cuts, k, manager.View(), i, done, ev);
      CommittableSize(c, p0, manager.View(), Extended(v0[i], cuts[i]));
      var e := BurstNext(s, ts, k, alive, rest);
      SurvivingAppend(done, s.View());
      done' := done + [s.View()];
      ev' := ev + e;
      if s.status != Finished {
        Shift(alive, s, rest);
        alive' := alive + [s];
        assert Views(alive') == kept + [s.View()];
      } else {
        alive' := alive;
        assert kept + [] == kept;
      }
    }

    /** Commit the bursts of the running rows front to back. */
    method CommitBursts(cuts: seq<seq<Token>>, k: nat) returns (ev: seq<Event>)
      requires c.Valid() && manager.c == c && |cuts| == |running| && Separate(running)
      requires forall i :: 0 <= i < |running| ==> Burstable(c, manager.View(), Views(running)[i], cuts[i])
      modifies this`running, manager`blocks, manager`free, manager`used, manager`index, running
      ensures var r := BurstRows(c, old(manager.View()), old(Views(running)), cuts, k);
        manager.View() == r.pool && Views(running) == Surviving(r.rows) && ev == r.events
      ensures Separate(running) && forall x :: x in running ==> x in old(running)
    {
      hide BurstRow, BurstRows, Surviving, Burstable, BurstTo, Separate;
      ghost var p0, v0 := manager.View(), Views(running);
      var batch := running;
      ghost var done: seq<Row> := [];
      ghost var alive: seq<Sequence> := [];
      ev := [];
      BurstToStart(c, p0, v0, cuts, k);
      assert batch[0..] == batch && [] + batch == batch && v0[0..] == v0;
      assert Bursting(batch, 0, p0, v0, cuts, k, alive, done, ev);
      hide Bursting;
      var i := 0;
      while i < |batch|
        invariant i <= |batch| && Bursting(batch, i, p0, v0, cuts, k, alive, done, ev)
      {
        ev, alive, done := BurstAt(batch, i, cuts[i], k, p0, v0, cuts, alive, done, ev);
        i := i + 1;
      }
      BurstingEnds(batch, p0, v0, cuts, k, alive, done, ev);
    }

    lemma BurstingEnds(batch: seq<Sequence>, p0: Pool, v0: seq<Row>, cuts: seq<seq<Token>>, k: nat,
                       alive: seq<Sequence>, done: seq<Row>, ev: seq<Event>)
      requires c.Valid() && |v0| == |cuts| == |batch| && Bursting(batch, |batch|, p0, v0, cuts, k, alive, done, ev)
      ensures BurstRows(c, p0, v0, cuts, k) == PostedAll(manager.View(), done, ev)
      ensures Views(running) == Surviving(done) && Separate(running)
      ensures forall x :: x in running ==> x in batch
    {
      hide BurstRows, Surviving, Separate;
      BurstToEnd(c, p0, v0, cuts, k, manager.View(), done, ev);
      assert running == alive;
    }

    /** Cut every verified burst; nothing to commit in one of them refuses the batch. */
    method CutAll(results: seq<SpecRow>) returns (ok: bool, cuts: seq<seq<Token>>)
      requires |results| == |running|
      ensures ok <==> forall i :: 0 <= i < |results| ==> Cuts(c, Views(running), results)[i] != []
      ensures ok ==> cuts == Cuts(c, Views(running), results)
    {
      hide Cut;
      ghost var all := Cuts(c, Views(running), results);
      cuts := [];
      var i := 0;
      while i < |results|
        invariant i <= |results| && cuts == all[..i] && forall j :: 0 <= j < i ==> all[j] != []
      {
        var ts := CutBurst(running[i], results[i].committed);
        assert ts == all[i];
        if ts == [] { return false, cuts; }
        cuts := cuts + [ts];
        i := i + 1;
      }
      ok := true;
    }

    /** Atomic burst commit: validate, trim the lease, commit every row. */
    method CommitSpeculative(k: nat, results: seq<SpecRow>, ghost base: Sys, ghost prepared: bool) returns (r: Option<seq<Event>>)
      requires Tidy([]) && manager.lease.Some? && Leased(c, base, View(), manager.lease.value, k, prepared)
      modifies this`running, manager, Repr
      ensures Tidy([])
      ensures match Speculation.CommitSpeculative(c, old(View()), old(manager.lease).value, k, results)
        case CommitOk(y, ev) => r == Some(ev) && View() == y && manager.lease == None
        case CommitFailed(_) => r == None && View() == old(View()) && manager.lease == old(manager.lease)
    {
      hide Leased, ValidResult, Cuts, KeepCounts, Leases.Finalize, BurstRows, Surviving, Separate, Speculation.CommitSpeculative,
           Burstable;
      ghost var y := View();
      var l := manager.lease.value;
      CommitFails(c, y, l, k, results);
      if |results| != |running| || |l.rows| != |running| { return None; }
      var i := 0;
      while i < |results|
        invariant i <= |results| && forall j :: 0 <= j < i ==> ValidResult(c, k, results[j])
      {
        if !ValidResult(c, k, results[i]) { return None; }
        i := i + 1;
      }
      var ok, cuts := CutAll(results);
      if !ok { return None; }
      var keep := KeepCounts(c, Views(running), l.rows, cuts);
      BurstAllowed(c, base, y, l, k, prepared, results);
      r := TrimAndCommit(k, cuts, keep);
    }

    /** Trim the lease to the kept blocks, then commit every row. */
    method TrimAndCommit(k: nat, cuts: seq<seq<Token>>, keep: seq<int>) returns (r: Option<seq<Event>>)
      requires Tidy([]) && manager.lease.Some? && |cuts| == |running|
      requires var f := Leases.Finalize(manager.View(), Views(running), manager.lease.value, keep);
        f.Settled? ==> |f.rows| == |cuts| && forall i :: 0 <= i < |cuts| ==> Burstable(c, f.pool, f.rows[i], cuts[i])
      modifies this`running, manager, Repr
      ensures Tidy([])
      ensures var f := Leases.Finalize(old(manager.View()), old(Views(running)), old(manager.lease).value, keep);
        if f.Refused? then r == None && View() == old(View()) && manager.lease == old(manager.lease)
        else
          var x := BurstRows(c, f.pool, f.rows, cuts, k);
          r == Some(x.events) && View() == old(View()).(pool := x.pool, running := Surviving(x.rows)) && manager.lease == None
    {
      hide Leases.Finalize, BurstRows, Surviving, Separate, Burstable;
      ghost var w, r0 := Views(waiting), running;
      QueuesApart(waiting, running);
      var ok := manager.Finalize(running, keep);
      assert Views(waiting) == w;
      if !ok { return None; }
      var ev := CommitBursts(cuts, k);
      assert Views(waiting) == w;
      Thinned(waiting, r0, running);
      r := Some(ev);
    }
  }

  lemma HeadInHand(c: Config, waiting: seq<Sequence>, running: seq<Sequence>, hand: seq<Sequence>, mid: Sequence, y: Sys, extra: seq<Row>)
    requires c.Valid() && Common(c, y, extra) && y.waiting == Views(waiting) && y.mid == Some(mid.id) && mid in waiting
    requires Separate(waiting + running + hand)
    ensures waiting != [] && waiting[0] == mid && waiting[0] !in waiting[1..] + running + hand
  {
    assert waiting != [];
    CommonDistinct(c, y, extra);
    HeadIs(waiting, mid);
    forall x | x in waiting[1..] + running + hand ensures x != waiting[0] {
      var all := waiting + running + hand;
      var k :| 0 <= k < |waiting[1..] + running + hand| && (waiting[1..] + running + hand)[k] == x;
      assert all[k + 1] == x && all[0] == waiting[0];
    }
  }

  lemma CommonDistinct(c: Config, y: Sys, extra: seq<Row>)
    requires c.Valid() && Common(c, y, extra)
    ensures Distinct(y.waiting) && Distinct(y.waiting + y.running + extra)
  {
    var q := y.waiting + y.running + extra;
    forall i, j | 0 <= i < j < |y.waiting| ensures y.waiting[i].id != y.waiting[j].id {
      assert q[i].id != q[j].id;
    }
  }

  lemma TablesInRange(c: Config, y: Sys, extra: seq<Row>, i: nat)
    requires c.Valid() && Common(c, y, extra) && i < |y.waiting + y.running + extra|
    ensures var s := (y.waiting + y.running + extra)[i]; forall k :: 0 <= k < |s.table| ==> s.table[k] < |y.pool.blocks|
  {
    assert RowOk(c, y.pool, (y.waiting + y.running + extra)[i]);
  }

  lemma LastInHand(w: seq<Sequence>, r: seq<Sequence>, hand: seq<Sequence>)
    requires r != [] && Separate(w + r + hand)
    ensures r[|r| - 1] !in w + r[..|r| - 1] + hand
  {
    var all, n, others := w + r + hand, |w| + |r| - 1, w + r[..|r| - 1] + hand;
    assert all[n] == r[|r| - 1];
    forall x | x in others ensures x != r[|r| - 1] {
      var k :| 0 <= k < |others| && others[k] == x;
      assert all[if k < n then k else k + 1] == x;
    }
  }

  lemma HandApart(w: seq<Sequence>, r: seq<Sequence>, hand: seq<Sequence>, s: Sequence)
    requires Separate(w + r + (hand + [s]))
    ensures s !in w && s !in r && s !in hand && Separate(w + r + hand)
  {
    var all, t := w + r + (hand + [s]), w + r + hand;
    assert all == t + [s];
    assert all[|t|] == s;
    forall x | x in t ensures x != s {
      var k :| 0 <= k < |t| && t[k] == x;
      assert all[k] == x;
    }
    forall k, l | 0 <= k < l < |t| ensures t[k] != t[l] {
      assert all[k] != all[l];
    }
    assert s !in t;
  }

  /** The last running request moves to the back of the waiting queue. */
  lemma Moved(w: seq<Sequence>, r: seq<Sequence>, hand: seq<Sequence>, w': seq<Sequence>, r': seq<Sequence>)
    requires r != [] && Separate(w + r + hand) && r' == r[..|r| - 1] && w' == w + [r[|r| - 1]]
    ensures Separate(w' + r' + hand)
  {
    var a, b, n := w + r + hand, w' + r' + hand, |w| + |r| - 1;
    assert a[n] == r[|r| - 1];
    forall k, l | 0 <= k < l < |b| ensures b[k] != b[l] {
      var k' := if k < |w| || k > n then k else if k == |w| then n else k - 1;
      var l' := if l < |w| || l > n then l else if l == |w| then n else l - 1;
      assert b[k] == a[k'] && b[l] == a[l'] && k' != l';
    }
  }

  /** The row in hand joins the waiting queue. */
  lemma JoinsWaiting(w: seq<Sequence>, r: seq<Sequence>, hand: seq<Sequence>, s: Sequence)
    requires Separate(w + r + hand) && s !in w && s !in r && s !in hand
    ensures Separate(w + [s] + r + hand)
  {
    var a, b := w + r + hand, w + [s] + r + hand;
    forall k, l | 0 <= k < l < |b| ensures b[k] != b[l] {
      if k != |w| && l != |w| {
        assert b[k] == a[if k < |w| then k else k - 1] && b[l] == a[if l < |w| then l else l - 1];
      } else {
        var m := if k == |w| then l else k;
        assert b[|w|] == s && b[m] == a[if m < |w| then m else m - 1] && s !in a;
      }
    }
  }

  lemma RoomFound(c: Config, y: Sys, cur: Row)
    requires c.Valid() && Allocator.CanAppend(c, y.pool, cur)
    ensures Scheduling.MakeRoom(c, y, cur) == Ok(Room(y, true))
  {
    hide Allocator.CanAppend;
  }

  lemma ReclaimLastStep(c: Config, y: Sys, cur: Row, extra: seq<Row>)
    requires c.Valid() && Common(c, y, extra) && NoChunk(y) && AllDecoding(y.running)
    requires !Allocator.CanAppend(c, y.pool, cur) && y.mid == None && y.running != []
    ensures var last := |y.running| - 1;
      var r := Scheduling.Preempt(y.(running := y.running[..last]), y.running[last]);
      && r.Ok? && r.value.mid == None && r.value.running == y.running[..last]
      && Common(c, r.value, extra) && NoChunk(r.value) && AllDecoding(r.value.running)
      && Scheduling.MakeRoom(c, y, cur) == Scheduling.MakeRoom(c, r.value, cur)
      && forall k :: 0 <= k < |y.running[last].table| ==> y.running[last].table[k] < |y.pool.blocks|
  {
    var n := |y.waiting| + |y.running| - 1;
    TablesInRange(c, y, extra, n);
    assert (y.waiting + y.running + extra)[n] == y.running[|y.running| - 1];
    hide Scheduling.Preempt, Allocator.CanAppend, Common, Decoding;
    ReclaimLast(c, y, extra);
  }

  lemma ReclaimSelfStep(c: Config, y: Sys, cur: Row, done: seq<Row>)
    requires c.Valid() && Common(c, y, done + [cur]) && y.mid == None && y.running == [] && Decoding(cur)
    requires !Allocator.CanAppend(c, y.pool, cur)
    ensures Scheduling.Preempt(y, cur).Ok?
    ensures Scheduling.MakeRoom(c, y, cur) == Ok(Room(Scheduling.Preempt(y, cur).value, false))
    ensures forall k :: 0 <= k < |cur.table| ==> cur.table[k] < |y.pool.blocks|
  {
    var extra := done + [cur];
    TablesInRange(c, y, extra, |y.waiting| + |y.running| + |done|);
    assert (y.waiting + y.running + extra)[|y.waiting| + |y.running| + |done|] == cur;
    hide Scheduling.Preempt, Allocator.CanAppend, Common, Decoding;
    ReclaimSelf(c, y, cur, done);
  }

  lemma PoolOk(c: Config, y: Sys, extra: seq<Row>)
    requires c.Valid() && Common(c, y, extra)
    ensures Wf(y.pool)
  {
  }

  lemma IdleParts(c: Config, y: Sys)
    requires c.Valid() && Idle(c, y)
    ensures Common(c, y, []) && NoChunk(y) && AllDecoding(y.running) && AllPlanned([])
  {
    hide Common;
  }

  lemma DecodeEnds(c: Config, y: Sys, done: seq<Row>)
    requires c.Valid() && Common(c, y, done) && (y.running == [] || |done| >= c.maxSeqs)
    ensures y.running == [] && Scheduling.DecodePhase(c, y, done) == Ok(Decoded(y, done))
  {
    CommonCount(c, y, done);
    hide Common;
  }

  lemma FrontApart(w: seq<Sequence>, r: seq<Sequence>, done: seq<Sequence>)
    requires r != [] && Separate(w + r + done)
    ensures Separate(w + r[1..] + (done + [r[0]]))
  {
    var a, b := w + r + done, w + r[1..] + (done + [r[0]]);
    forall k, l | 0 <= k < l < |b| ensures b[k] != b[l] {
      var k' := if k < |w| then k else if k < |b| - 1 then k + 1 else |w|;
      var l' := if l < |w| then l else if l < |b| - 1 then l + 1 else |w|;
      assert b[k] == a[k'] && b[l] == a[l'] && k' != l';
    }
  }

  lemma FrontDecodes(y: Sys)
    requires AllDecoding(y.running) && y.running != []
    ensures AllDecoding(y.running[1..]) && Decoding(y.running[0])
    ensures NoChunk(y) ==> NoChunk(y.(running := y.running[1..]))
  {
    hide Decoding;
  }

  /** The front of the running queue is taken in hand. */
  lemma FrontInHand(c: Config, w: seq<Sequence>, r: seq<Sequence>, done: seq<Sequence>, y: Sys, v: seq<Row>)
    requires c.Valid() && Common(c, y, v) && r != [] && Separate(w + r + done) && y.running == Views(r) && AllDecoding(y.running)
    ensures Separate(w + r[1..] + (done + [r[0]]))
    ensures var y1 := y.(running := y.running[1..]);
      Common(c, y1, v + [y.running[0]]) && AllDecoding(y1.running) && Decoding(y.running[0])
    ensures NoChunk(y) ==> NoChunk(y.(running := y.running[1..]))
  {
    hide Common, Separate, AllDecoding, NoChunk, Decoding;
    FrontApart(w, r, done);
    TakeFront(c, y, v);
    FrontDecodes(y);
  }

  lemma RoomMade(c: Config, y: Sys, cur: Row, done: seq<Row>, z: Sys, found: bool)
    requires c.Valid() && Common(c, y, done + [cur]) && NoChunk(y) && AllDecoding(y.running) && Decoding(cur)
    requires Scheduling.MakeRoom(c, y, cur) == Ok(Room(z, found))
    ensures |z.running| <= |y.running| && NoChunk(z) && AllDecoding(z.running)
    ensures if found then Common(c, z, done + [cur]) && Allocator.CanAppend(c, z.pool, cur) else Common(c, z, done)
  {
    hide Common, Evolves, Scheduling.MakeRoom, Decoding, Allocator.CanAppend;
    MakeRoomKeeps(c, y, cur, done);
  }

  lemma DecodeUnfolds(c: Config, y: Sys, done: seq<Row>, z: Sys, found: bool)
    requires c.Valid() && y.running != [] && |done| < c.maxSeqs
    requires Scheduling.MakeRoom(c, y.(running := y.running[1..]), y.running[0]) == Ok(Room(z, found))
    ensures |z.running| < |y.running|
    ensures !found ==> Scheduling.DecodePhase(c, y, done) == Scheduling.DecodePhase(c, z, done)
    ensures found ==>
      var (p, row) := Allocator.MayAppend(c, z.pool, y.running[0].(sched := 1, prefill := false));
      Scheduling.DecodePhase(c, y, done) == Scheduling.DecodePhase(c, z.(pool := p), done + [row])
  {
    hide Scheduling.MakeRoom, Allocator.MayAppend;
  }

  lemma PlannedMore(done: seq<Row>, row: Row)
    requires AllPlanned(done) && Planned(row)
    ensures AllPlanned(done + [row])
  {
    hide Planned;
  }

  lemma SameNoChunk(y: Sys, p: Pool)
    requires NoChunk(y)
    ensures NoChunk(y.(pool := p))
  {
  }

  /** One round of the decode loop. */
  lemma DecodeStep(c: Config, y: Sys, done: seq<Row>, z: Sys, found: bool)
    requires c.Valid() && Common(c, y, done) && NoChunk(y) && AllDecoding(y.running) && AllPlanned(done)
    requires y.running != [] && |done| < c.maxSeqs
    requires Scheduling.MakeRoom(c, y.(running := y.running[1..]), y.running[0]) == Ok(Room(z, found))
    ensures !found ==>
      && Scheduling.DecodePhase(c, y, done) == Scheduling.DecodePhase(c, z, done)
      && Common(c, z, done) && NoChunk(z) && AllDecoding(z.running)
    ensures found ==>
      var (p, row) := Allocator.MayAppend(c, z.pool, y.running[0].(sched := 1, prefill := false));
      && Scheduling.DecodePhase(c, y, done) == Scheduling.DecodePhase(c, z.(pool := p), done + [row])
      && Common(c, z.(pool := p), done + [row]) && NoChunk(z.(pool := p)) && AllDecoding(z.running) && AllPlanned(done + [row])
    ensures |z.running| < |y.running|
  {
    hide Common, Evolves, Scheduling.MakeRoom, Allocator.MayAppend, Planned, Decoding, Allocator.CanAppend, NoChunk, AllDecoding,
         AllPlanned, Scheduling.DecodePhase, Rows;
    var y1 := y.(running := y.running[1..]);
    TakeFront(c, y, done);
    FrontDecodes(y);
    RoomMade(c, y1, y.running[0], done, z, found);
    DecodeUnfolds(c, y, done, z, found);
    if found {
      PlanDecode(c, z, y.running[0], done);
      PlannedMore(done, Allocator.MayAppend(c, z.pool, y.running[0].(sched := 1, prefill := false)).1);
      SameNoChunk(z, Allocator.MayAppend(c, z.pool, y.running[0].(sched := 1, prefill := false)).0);
    }
  }

  /** What is known about the waiting head before it is placed. */
  lemma HeadFacts(c: Config, y: Sys, remaining: nat)
    requires c.Valid() && Common(c, y, []) && NoChunk(y) && y.waiting != [] && remaining >= 1
    ensures Wf(y.pool) && y.waiting[0].sched == 0
    ensures var s := y.waiting[0];
      var r := Scheduling.Place(c, y.pool, s, remaining);
      && (s.table == [] && Allocator.CanAllocate(c, y.pool, s).Some? ==>
            Allocator.CanAllocate(c, y.pool, s).value * c.blockSize < |s.toks|)
      && (s.table != [] ==> s.cached < |s.toks|)
      && (r == NotAdmitted || r == NoBlocks || r.Placed?)
  {
    HeadRest(c, y);
    var s, rest := y.waiting[0], Owners(y.waiting[1..] + y.running);
    PlaceHead(c, y, remaining);
    PlacedIs(c, y.pool, s, remaining, rest);
    hide Held, Owners, PlacedOk, Scheduling.Place, Wf;
    if s.table == [] {
      WfParts(y.pool);
      if Allocator.CanAllocate(c, y.pool, s).Some? { AdmissionLeaves(c, y.pool, s); }
    } else {
      HeadIsPartial(y);
    }
  }

  lemma HeadIsPartial(y: Sys)
    requires WaitShape(y) && NoChunk(y) && y.waiting != []
    ensures y.waiting[0].sched == 0 && (y.waiting[0].table != [] ==> y.waiting[0].cached < |y.waiting[0].toks|)
  {
  }

  /** Attaching blocks does not look at the scheduled count. */
  lemma AllocateSched(c: Config, p: Pool, s: Row, nc: nat, through: nat, n: nat)
    requires c.Valid()
    ensures match Allocator.AllocateIncremental(c, p, s, nc, through)
      case Done(p', s') => Allocator.AllocateIncremental(c, p, s.(sched := n), nc, through) == AllocResult.Done(p', s'.(sched := n))
      case NoRoom => Allocator.AllocateIncremental(c, p, s.(sched := n), nc, through) == NoRoom
      case Fail(e) => Allocator.AllocateIncremental(c, p, s.(sched := n), nc, through) == Fail(e)
  {
    hide Hits, Grow, AttachAll, CountOut, CeilDiv;
  }

  lemma ExtendSched(c: Config, p: Pool, s: Row, through: nat, n: nat)
    requires c.Valid()
    ensures match Allocator.Extend(c, p, s, through)
      case Done(p', s') => Allocator.Extend(c, p, s.(sched := n), through) == AllocResult.Done(p', s'.(sched := n))
      case NoRoom => Allocator.Extend(c, p, s.(sched := n), through) == NoRoom
      case Fail(e) => Allocator.Extend(c, p, s.(sched := n), through) == Fail(e)
  {
    hide Grow, CeilDiv;
  }

  lemma PlaceFreshIs(c: Config, p: Pool, s: Row, remaining: nat)
    requires c.Valid() && s.table == [] && remaining >= 1
    requires var hits := Allocator.CanAllocate(c, p, s); hits.Some? ==> hits.value * c.blockSize < |s.toks|
    requires var r := Scheduling.Place(c, p, s, remaining); r == NotAdmitted || r.Placed?
    ensures var r := Scheduling.Place(c, p, s, remaining);
      match Allocator.CanAllocate(c, p, s)
      case None => r == NotAdmitted
      case Some(nc) =>
        var work := |s.toks| - nc * c.blockSize;
        var n := Min(work, remaining);
        && n >= 1 && nc * c.blockSize + n >= 0
        && var a := Allocator.AllocateIncremental(c, p, s.(sched := n), nc, nc * c.blockSize + n);
           a.Done? && r == Placement.Placed(a.pool, a.row, work)
  {
    match Allocator.CanAllocate(c, p, s)
    case None =>
    case Some(nc) =>
      var n := Min(|s.toks| - nc * c.blockSize, remaining);
      MulMono(0, nc, c.blockSize);
      AllocateSched(c, p, s, nc, nc * c.blockSize + n, n);
      hide Allocator.AllocateIncremental, Allocator.CanAllocate;
  }

  lemma PlacePartialIs(c: Config, p: Pool, s: Row, remaining: nat)
    requires c.Valid() && s.table != [] && remaining >= 1 && s.cached < |s.toks|
    requires var r := Scheduling.Place(c, p, s, remaining); r == NotAdmitted || r == NoBlocks || r.Placed?
    ensures var r := Scheduling.Place(c, p, s, remaining);
      var work := |s.toks| - s.cached;
      var n := Min(work, remaining);
      match Allocator.Extend(c, p, s.(sched := n), s.cached + n)
      case Done(p', row) => r == Placement.Placed(p', row, work)
      case NoRoom => r == NoBlocks
      case Fail(_) => false
  {
    var n := Min(|s.toks| - s.cached, remaining);
    ExtendSched(c, p, s, s.cached + n, n);
    hide Allocator.Extend;
  }

  lemma MidIsHead(c: Config, w: seq<Sequence>, mid: Sequence?, y: Sys)
    requires c.Valid() && Common(c, y, []) && y.waiting == Views(w) && y.mid == (if mid == null then None else Some(mid.id))
    requires mid != null ==> mid in w
    ensures mid != null ==> w != [] && mid == w[0]
  {
    if mid != null {
      CommonDistinct(c, y, []);
      HeadIs(w, mid);
    }
  }

  lemma HeadApart(w: seq<Sequence>, r: seq<Sequence>)
    requires w != [] && Separate(w + r + [])
    ensures w[0] !in w[1..] && w[0] !in r
  {
    var a := w + r + [];
    assert a[0] == w[0];
    forall x | x in w[1..] ensures x != w[0] {
      var k :| 0 <= k < |w[1..]| && w[1..][k] == x;
      assert a[k + 1] == x;
    }
    forall x | x in r ensures x != w[0] {
      var k :| 0 <= k < |r| && r[k] == x;
      assert a[|w| + k] == x;
    }
  }

  lemma HeadRuns(w: seq<Sequence>, r: seq<Sequence>)
    requires w != [] && Separate(w + r + [])
    ensures Separate(w[1..] + (r + [w[0]]) + [])
  {
    var a, b := w + r + [], w[1..] + (r + [w[0]]) + [];
    forall k, l | 0 <= k < l < |b| ensures b[k] != b[l] {
      var k' := if k < |b| - 1 then k + 1 else 0;
      var l' := if l < |b| - 1 then l + 1 else 0;
      assert b[k] == a[k'] && b[l] == a[l'] && k' != l';
    }
  }

  lemma JoinRunning(w: seq<Sequence>, done: seq<Sequence>)
    requires Separate(w + [] + done)
    ensures Separate(w + (done + []) + [])
  {
    assert w + (done + []) + [] == w + [] + done;
  }

  lemma IdsAre(q: seq<Sequence>)
    ensures IdsOf(q) == Ids(Views(q)) && |IdsOf(q)| == |q|
  {
  }

  // What one round of the fill loop comes to.

  lemma FillRefused(c: Config, y: Sys, ids: seq<nat>, tokens: nat)
    requires c.Valid() && y.waiting != [] && |ids| < c.maxSeqs && tokens < c.budget
    requires Scheduling.Place(c, y.pool, y.waiting[0], c.budget - tokens) == NotAdmitted
    ensures Scheduling.FillPhase(c, y, ids, tokens) == Ok(Filled(y, ids))
  {
    hide Scheduling.Place;
  }

  lemma FillStuck(c: Config, y: Sys, ids: seq<nat>, tokens: nat)
    requires c.Valid() && Filling(c, y, ids, tokens) && y.waiting != [] && |ids| < c.maxSeqs && tokens < c.budget
    requires Scheduling.Place(c, y.pool, y.waiting[0], c.budget - tokens) == NoBlocks
    ensures var s := y.waiting[0];
      && y.mid == Some(s.id) && (forall k :: 0 <= k < |s.table| ==> s.table[k] < |y.pool.blocks|)
      && var r := Scheduling.Preempt(y.(waiting := y.waiting[1..]), s);
         r.Ok? && Scheduling.FillPhase(c, y, ids, tokens) == Ok(Filled(r.value, ids))
  {
    hide Filling, Common, NoChunk, Scheduling.Place, Scheduling.Preempt, Scheduling.FillPhase, FilledOk, PlacedOk;
    var s := y.waiting[0];
    FillingCommon(c, y, ids, tokens);
    TablesInRange(c, y, [], 0);
    assert (y.waiting + y.running + [])[0] == s;
    HeadSched(c, y);
    PlaceHead(c, y, c.budget - tokens);
    MidHeadId(c, y);
    assert s.(sched := 0) == s;
    FillReclaims(c, y, ids, tokens);
    FillStuckIs(c, y, ids, tokens);
  }

  lemma FillStuckIs(c: Config, y: Sys, ids: seq<nat>, tokens: nat)
    requires c.Valid() && y.waiting != [] && ids != [] && |ids| < c.maxSeqs && tokens < c.budget
    requires Scheduling.Place(c, y.pool, y.waiting[0], c.budget - tokens) == NoBlocks
    requires y.mid == Some(y.waiting[0].id) && y.waiting[0].(sched := 0) == y.waiting[0]
    requires Scheduling.Preempt(y.(waiting := y.waiting[1..]), y.waiting[0]).Ok?
    ensures Scheduling.FillPhase(c, y, ids, tokens)
         == Ok(Filled(Scheduling.Preempt(y.(waiting := y.waiting[1..]), y.waiting[0]).value, ids))
  {
    hide Scheduling.Place, Scheduling.Preempt;
  }

  lemma FillTook(c: Config, y: Sys, ids: seq<nat>, tokens: nat, p: Pool, row: Row, work: int)
    requires c.Valid() && Filling(c, y, ids, tokens) && y.waiting != [] && |ids| < c.maxSeqs && tokens < c.budget
    requires Scheduling.Place(c, y.pool, y.waiting[0], c.budget - tokens) == Placement.Placed(p, row, work)
    ensures var s := y.waiting[0];
      && row.id == s.id && row.sched >= 0 && (y.mid.Some? ==> y.mid == Some(s.id))
      && if row.cached + row.sched == |row.toks| then
           var z := Sys(p, y.waiting[1..], y.running + [row.(status := Running)], None);
           && Filling(c, z, ids + [s.id], tokens + row.sched)
           && Scheduling.FillPhase(c, y, ids, tokens) == Scheduling.FillPhase(c, z, ids + [s.id], tokens + row.sched)
         else
           Scheduling.FillPhase(c, y, ids, tokens) ==
             Ok(Filled(Sys(p, [row] + y.waiting[1..], y.running, Some(s.id)), ids + [s.id]))
  {
    hide Filling, Common, NoChunk, Scheduling.Place, Scheduling.FillPhase, RowOk, From, Wf, Owned, Keeps, Shrinks, Evolves;
    FillingCommon(c, y, ids, tokens);
    PlaceHead(c, y, c.budget - tokens);
    MidHeadId(c, y);
    PlacedSame(c, y.pool, y.waiting[0], row);
    PlaceAdds(c, y.pool, y.waiting[0], c.budget - tokens);
    FillTookIs(c, y, ids, tokens, p, row, work);
    if row.sched >= work { FillComplete(c, y, ids, tokens, p, row); }
  }

  lemma FillTookIs(c: Config, y: Sys, ids: seq<nat>, tokens: nat, p: Pool, row: Row, work: int)
    requires c.Valid() && y.waiting != [] && |ids| < c.maxSeqs && tokens < c.budget
    requires Scheduling.Place(c, y.pool, y.waiting[0], c.budget - tokens) == Placement.Placed(p, row, work)
    requires row.id == y.waiting[0].id && row.sched >= 0 && (y.mid.Some? ==> y.mid == Some(row.id))
    requires row.sched <= work && row.cached + work == |row.toks|
    ensures if row.sched >= work then
        Scheduling.FillPhase(c, y, ids, tokens)
          == Scheduling.FillPhase(c, Sys(p, y.waiting[1..], y.running + [row.(status := Running)], None), ids + [row.id], tokens + row.sched)
      else
        Scheduling.FillPhase(c, y, ids, tokens)
          == Ok(Filled(Sys(p, [row] + y.waiting[1..], y.running, Some(row.id)), ids + [row.id]))
  {
    hide Scheduling.Place;
  }

  lemma PlaceAdds(c: Config, p: Pool, s: Row, remaining: nat)
    requires c.Valid()
    ensures var r := Scheduling.Place(c, p, s, remaining);
      r.Placed? ==> r.row.sched <= r.work && r.row.cached + r.work == |r.row.toks|
  {
  }

  lemma FillingCommon(c: Config, y: Sys, ids: seq<nat>, tokens: nat)
    requires c.Valid() && Filling(c, y, ids, tokens)
    ensures Common(c, y, []) && NoChunk(y) && ids == Ids(y.running)
  {
  }

  lemma HeadSched(c: Config, y: Sys)
    requires c.Valid() && Common(c, y, []) && NoChunk(y) && y.waiting != []
    ensures y.waiting[0].sched == 0
  {
    HeadIsPartial(y);
  }

  lemma MidHeadId(c: Config, y: Sys)
    requires c.Valid() && Common(c, y, []) && y.waiting != []
    ensures y.mid.Some? ==> y.mid == Some(y.waiting[0].id)
  {
  }

  lemma PlacedSame(c: Config, p: Pool, s: Row, row: Row)
    requires c.Valid() && From(c, p, s, row)
    ensures row.id == s.id
  {
    assert Core(row).id == row.id && Core(s).id == s.id;
  }

  lemma FillEnds(c: Config, y: Sys, ids: seq<nat>, tokens: nat)
    requires c.Valid() && (y.waiting == [] || |ids| >= c.maxSeqs || tokens >= c.budget)
    ensures Scheduling.FillPhase(c, y, ids, tokens) == Ok(Filled(y, ids))
  {
  }

  /** The two phases make up the decision. */
  lemma ScheduleRuns(c: Config, y: Sys, y1: Sys, done: seq<Row>)
    requires c.Valid() && Idle(c, y) && Scheduling.DecodePhase(c, y, []) == Ok(Decoded(y1, done))
    requires Common(c, y1, done) && NoChunk(y1) && y1.running == [] && AllPlanned(done)
    ensures var y2 := y1.(running := done + y1.running);
      && Filling(c, y2, Ids(done), |done|)
      && Scheduling.FillPhase(c, y2, Ids(done), |done|).Ok?
      && var f := Scheduling.FillPhase(c, y2, Ids(done), |done|).value;
         Scheduling.Schedule(c, y) ==
           if f.ids == [] then Err(NothingPending) else Ok(Scheduled(f.sys, f.ids, |f.ids| > |done|))
  {
    hide Idle, Filling, Common, NoChunk, Scheduling.FillPhase, Scheduling.DecodePhase, Evolves, States.Ready, AllPlanned,
         MidConsistent, Scheduling.Schedule, FilledOk;
    AfterDecode(c, y1, done);
    var y2 := y1.(running := done + y1.running);
    FillPhaseKeeps(c, y2, Ids(done), |done|);
    NothingToSchedule(c, y);
    IdleChecked(c, y);
    ScheduleUnfolds(c, y, y1, done);
    if y.waiting != [] || y.running != [] { ScheduleProgress(c, y); }
  }

  lemma ScheduleUnfolds(c: Config, y: Sys, y1: Sys, done: seq<Row>)
    requires c.Valid() && MidConsistent(y) && Scheduling.DecodePhase(c, y, []) == Ok(Decoded(y1, done))
    requires Scheduling.FillPhase(c, y1.(running := done + y1.running), Ids(done), |done|).Ok?
    ensures var f := Scheduling.FillPhase(c, y1.(running := done + y1.running), Ids(done), |done|).value;
      var r := Scheduling.Schedule(c, y);
      if f.ids == [] then r.Err? else r == Ok(Scheduled(f.sys, f.ids, |f.ids| > |done|)) || r == Err(MidMismatch)
  {
    hide Scheduling.FillPhase, Scheduling.DecodePhase, MidConsistent;
  }

  /** The ids of requests never change. */
  function IdsOf(q: seq<Sequence>): seq<nat> {
    seq(|q|, i requires 0 <= i < |q| => q[i].id)
  }

  lemma QueuesApart(w: seq<Sequence>, r: seq<Sequence>)
    requires Separate(w + r + [])
    ensures Separate(r) && forall k :: 0 <= k < |w| ==> w[k] !in r
  {
    var a := w + r + [];
    forall k, l | 0 <= k < l < |r| ensures r[k] != r[l] { assert a[|w| + k] != a[|w| + l]; }
    forall k | 0 <= k < |w| ensures w[k] !in r {
      forall l | 0 <= l < |r| ensures r[l] != w[k] { assert a[k] != a[|w| + l]; }
    }
  }

  /** Requests that leave the running queue leave the rest apart. */
  lemma Thinned(w: seq<Sequence>, r: seq<Sequence>, r': seq<Sequence>)
    requires Separate(w + r + []) && Separate(r') && forall x :: x in r' ==> x in r
    ensures Separate(w + r' + [])
  {
    QueuesApart(w, r);
    var a, b := w + r + [], w + r' + [];
    forall k, l | 0 <= k < l < |b| ensures b[k] != b[l] {
      if l < |w| {
        assert a[k] != a[l];
      } else if k < |w| {
        assert b[k] == w[k] && b[l] in r';
      } else {
        assert r'[k - |w|] != r'[l - |w|];
      }
    }
  }

  lemma ReadyCommittable(c: Config, y: Sys, ids: seq<nat>)
    requires c.Valid() && States.Ready(c, y, ids)
    ensures forall i :: 0 <= i < |y.running| ==> Committable(c, y.pool, y.running[i])
    ensures ChunkRows(y) != [] ==> Committable(c, y.pool, y.waiting[0])
  {
    assert Held(c, y.pool, y.waiting + y.running + []);
    hide Held;
    forall i | 0 <= i < |y.running| ensures Committable(c, y.pool, y.running[i]) {
      assert (y.waiting + y.running + [])[|y.waiting| + i] == y.running[i];
      HeldMember(c, y.pool, y.waiting + y.running + [], y.running[i]);
      OkCommittable(c, y.pool, y.running[i]);
    }
    if ChunkRows(y) != [] {
      assert (y.waiting + y.running + [])[0] == y.waiting[0];
      HeldMember(c, y.pool, y.waiting + y.running + [], y.waiting[0]);
      OkCommittable(c, y.pool, y.waiting[0]);
    }
  }

  lemma OkCommittable(c: Config, p: Pool, s: Row)
    requires c.Valid() && RowOk(c, p, s)
    ensures Committable(c, p, s)
  {
    FloorCeil(s.cached + s.sched, c.blockSize);
    hide CeilDiv, Chain, BlockTokens;
  }

  lemma PostOne(c: Config, p: Pool, s: Row, ts: seq<Token>)
    requires c.Valid() && |ts| == 1
    ensures var r := PostRow(c, p, s, ts[0]); PostRows(c, p, [s], ts) == PostedAll(r.pool, [r.row], r.events)
  {
    hide PostRow;
    var r := PostRow(c, p, s, ts[0]);
    assert [s][1..] == [];
    assert PostRows(c, r.pool, [s][1..], ts[1..]) == PostedAll(r.pool, [], []);
    assert [r.row] + [] == [r.row] && r.events + [] == r.events;
  }

  lemma PostNone(c: Config, p: Pool, ts: seq<Token>)
    requires c.Valid()
    ensures PostRows(c, p, [], ts) == PostedAll(p, [], [])
  {
  }

  lemma PostRefusals(c: Config, y: Sys, tokens: seq<Token>, staged: Coverage)
    requires c.Valid()
    ensures |tokens| != |y.running| + |ChunkRows(y)| || (exists i :: 0 <= i < |tokens| && !InVocabulary(c, tokens[i])) ==>
      Commit.Postprocess(c, y, tokens, staged).PostErr?
  {
    hide PostRows, InVocabulary;
  }

  // ----- bursts -----

  /** The cut of a burst so far. */
  ghost predicate Cutting(c: Config, s: Row, burst: seq<Token>, i: nat, ts: seq<Token>, stop: bool) {
    i <= |burst| && Cut(c, s, burst) == ts + if stop then [] else Cut(c, s.(toks := s.toks + ts), burst[i..])
  }

  lemma CutStart(c: Config, s: Row, burst: seq<Token>)
    ensures Cutting(c, s, burst, 0, [], false)
  {
    assert s.toks + [] == s.toks && burst[0..] == burst;
    assert [] + Cut(c, s, burst) == Cut(c, s, burst);
  }

  lemma CutStep(c: Config, s: Row, burst: seq<Token>, i: nat, ts: seq<Token>)
    requires i < |burst| && Cutting(c, s, burst, i, ts, false)
    ensures if |s.toks| - s.prompt + |ts| >= s.maxTokens then Cutting(c, s, burst, i, ts, true)
            else Cutting(c, s, burst, i + 1, ts + [burst[i]], !s.ignoreEos && burst[i] == c.eos)
  {
    var s1, b := s.(toks := s.toks + ts), burst[i..];
    assert b[0] == burst[i] && b[1..] == burst[i + 1..];
    assert s1.toks + [burst[i]] == s.toks + (ts + [burst[i]]);
    var rest := Cut(c, s1.(toks := s1.toks + [b[0]]), b[1..]);
    assert ts + ([burst[i]] + rest) == ts + [burst[i]] + rest;
    assert ts + [burst[i]] + [] == ts + [burst[i]];
  }

  lemma CutEnd(c: Config, s: Row, burst: seq<Token>, i: nat, ts: seq<Token>, stop: bool)
    requires Cutting(c, s, burst, i, ts, stop) && (stop || i == |burst|)
    ensures ts == Cut(c, s, burst)
  {
    assert burst[|burst|..] == [];
    assert ts + [] == ts;
  }

  /** A row with its burst appended and scheduled for publication. */
  function Extended(s: Row, ts: seq<Token>): Row
  {
    s.(toks := s.toks + ts, sched := |ts|)
  }

  lemma BurstRowShape(c: Config, p: Pool, s: Row, ts: seq<Token>, k: nat)
    requires c.Valid() && ts != [] && s.cached + 1 == |s.toks|
    ensures var cached := |s.toks| + |ts| - 1;
      var q := Allocator.HashBlocks(c, p, Extended(s, ts));
      var g := s.(toks := s.toks + ts, cached := cached, draft := Min(cached, |s.toks| + k - 1), sched := 0);
      && g.draft >= 0
      && BurstRow(c, p, s, ts, k) ==
           if Stops(c, g) then Posted(Release(q, s.table), Cleared(g).(status := Finished), BurstEvents(s.id, ts, true))
           else Posted(q, g, BurstEvents(s.id, ts, false))
  {
    hide Allocator.HashBlocks, Release, BurstEvents, Stops;
  }

  /** What committing a burst needs of a row and its table. */
  ghost predicate Burstable(c: Config, p: Pool, s: Row, ts: seq<Token>)
    requires c.Valid()
  {
    ts != [] && s.cached + 1 == |s.toks| && Committable(c, p, Extended(s, ts))
  }

  /** The first i rows are committed, into `done` and `ev`; p is the pool by now. */
  ghost predicate BurstTo(c: Config, p0: Pool, q: seq<Row>, cuts: seq<seq<Token>>, k: nat, p: Pool, i: nat,
                          done: seq<Row>, ev: seq<Event>)
    requires c.Valid() && |q| == |cuts|
  {
    && i <= |q| && |done| == i
    && var r := BurstRows(c, p, q[i..], cuts[i..], k);
       BurstRows(c, p0, q, cuts, k) == PostedAll(r.pool, done + r.rows, ev + r.events)
  }

  lemma BurstToStart(c: Config, p: Pool, q: seq<Row>, cuts: seq<seq<Token>>, k: nat)
    requires c.Valid() && |q| == |cuts|
    ensures BurstTo(c, p, q, cuts, k, p, 0, [], []) && Surviving([]) == []
  {
    hide BurstRows;
    assert q[0..] == q && cuts[0..] == cuts;
    var r := BurstRows(c, p, q, cuts, k);
    assert [] + r.rows == r.rows && [] + r.events == r.events;
  }

  lemma BurstToStep(c: Config, p0: Pool, q: seq<Row>, cuts: seq<seq<Token>>, k: nat, p: Pool, i: nat, done: seq<Row>, ev: seq<Event>)
    requires c.Valid() && |q| == |cuts| && i < |q| && cuts[i] != [] && BurstTo(c, p0, q, cuts, k, p, i, done, ev)
    ensures var r := BurstRow(c, p, q[i], cuts[i], k);
      BurstTo(c, p0, q, cuts, k, r.pool, i + 1, done + [r.row], ev + r.events)
  {
    hide BurstRow;
    var a, t := q[i..], cuts[i..];
    assert a[0] == q[i] && a[1..] == q[i + 1..] && t[0] == cuts[i] && t[1..] == cuts[i + 1..];
    var r := BurstRow(c, p, q[i], cuts[i], k);
    var rest := BurstRows(c, r.pool, a[1..], t[1..], k);
    assert done + ([r.row] + rest.rows) == done + [r.row] + rest.rows;
    assert ev + (r.events + rest.events) == ev + r.events + rest.events;
  }

  lemma BurstToEnd(c: Config, p0: Pool, q: seq<Row>, cuts: seq<seq<Token>>, k: nat, p: Pool, done: seq<Row>, ev: seq<Event>)
    requires c.Valid() && |q| == |cuts| && BurstTo(c, p0, q, cuts, k, p, |q|, done, ev)
    ensures BurstRows(c, p0, q, cuts, k) == PostedAll(p, done, ev)
  {
    assert q[|q|..] == [] && done + [] == done && ev + [] == ev;
  }

  /** How a burst commit is decided. */
  lemma CommitFails(c: Config, y: Sys, l: Lease, k: nat, results: seq<SpecRow>)
    requires c.Valid()
    ensures var r := Speculation.CommitSpeculative(c, y, l, k, results);
      if |results| != |y.running| || |l.rows| != |y.running| || (exists i :: 0 <= i < |results| && !ValidResult(c, k, results[i]))
      then r.CommitFailed?
      else
        var cuts := Cuts(c, y.running, results);
        if exists i :: 0 <= i < |cuts| && cuts[i] == [] then r.CommitFailed?
        else
          var f := Leases.Finalize(y.pool, y.running, l, KeepCounts(c, y.running, l.rows, cuts));
          if f.Refused? then r.CommitFailed?
          else
            var x := BurstRows(c, f.pool, f.rows, cuts, k);
            r == CommitOk(Sys(x.pool, y.waiting, Surviving(x.rows), y.mid), x.events)
  {
    hide ValidResult, Leases.Finalize, BurstRows, Surviving, Cut;
  }

  /** After trimming, every row's burst can be committed on its kept blocks. */
  lemma BurstAllowed(c: Config, base: Sys, y: Sys, lease: Lease, k: nat, prepared: bool, results: seq<SpecRow>)
    requires c.Valid() && Leased(c, base, y, lease, k, prepared) && |results| == |y.running| == |lease.rows|
    requires forall i :: 0 <= i < |results| ==> ValidResult(c, k, results[i])
    ensures var cuts := Cuts(c, y.running, results);
      var f := Leases.Finalize(y.pool, y.running, lease, KeepCounts(c, y.running, lease.rows, cuts));
      f.Settled? ==> |f.rows| == |cuts| && forall i :: 0 <= i < |cuts| ==> Burstable(c, f.pool, f.rows[i], cuts[i])
  {
    LeasedNonEmpty(c, base, y, lease, k, prepared);
    RunningFields(c, base, y, lease, k, prepared, 0);
    LeasedParts(c, base, y, lease, k, prepared);
    hide Leased, LeaseOf, Leases.Finalize, CutIs, KeepsPrefix, ValidResult, LeaseBase, Cuts, KeepCounts, Keeping, Kept, PureDecode,
         Burstable, KeepFits;
    assert ResultsValid(c, k, results, |base.running|);
    CommitCuts(c, base, y, lease, k, prepared, results);
    var p := LeaseBase(base, lease, prepared).pool;
    var cuts := Cuts(c, y.running, results);
    var keep := KeepCounts(c, y.running, lease.rows, cuts);
    FinalizeKeeping(p, base.running, y.pool, y.running, lease, keep);
    BaseHeld(c, base, y, lease, k, prepared);
    TrimmedBurstable(c, p, base, lease, keep, cuts, y.pool, y.running);
  }

  lemma TrimmedBurstable(c: Config, p: Pool, base: Sys, lease: Lease, keep: seq<int>, cuts: seq<seq<Token>>, q: Pool, rows': seq<Row>)
    requires c.Valid() && PureDecode(c, base) && Held(c, p, base.running + base.waiting)
    requires LeaseOf(p, base.running, q, rows', lease) && KeepFits(lease.rows, keep)
    requires |base.running| == |lease.rows| == |cuts| && forall b :: b in lease.order ==> b in p.free
    requires forall i :: 0 <= i < |cuts| ==>
      cuts[i] != [] && KeepsPrefix(c, base.running[i], cuts[i], lease.rows[i].appended, keep[i])
    ensures var f := Keeping(p, Kept(lease.rows, keep));
      var t := Trimmed(base.running, lease.rows, keep);
      forall i :: 0 <= i < |cuts| ==> Burstable(c, f, t[i], cuts[i])
  {
    var f := Keeping(p, Kept(lease.rows, keep));
    var t := Trimmed(base.running, lease.rows, keep);
    assert lease.order == Flatten(lease.rows) && NoDup(lease.order);
    PurePlanned(c, base);
    hide PureDecode, LeaseOf, Held, Keeping, Kept, KeepFits, KeepsPrefix, Bumped, Planned, AllComplete, Committable, Flatten, NoDup;
    TrimmedHeld(c, p, base.running, base.waiting, lease.rows, keep, cuts);
    var b := BumpedRows(t, cuts);
    forall i | 0 <= i < |cuts| ensures Burstable(c, f, t[i], cuts[i]) {
      HeldMember(c, f, b + base.waiting, (b + base.waiting)[i]);
      assert Planned(base.running[i]);
      BumpedBurstable(c, f, base.running[i], t[i], cuts[i]);
    }
  }

  lemma BumpedBurstable(c: Config, p: Pool, s: Row, t: Row, ts: seq<Token>)
    requires c.Valid() && ts != [] && Planned(s) && t == s.(table := t.table) && RowOk(c, p, Bumped(t, ts))
    ensures Burstable(c, p, t, ts)
  {
    var b := Bumped(t, ts);
    OkCommittable(c, p, b);
    assert b.cached + b.sched == t.cached + |ts|;
    hide RowOk, Full;
  }

  // ----- cancellation -----

  ghost predicate InRange(p: Pool, s: Row) {
    forall k :: 0 <= k < |s.table| ==> s.table[k] < |p.blocks|
  }

  lemma RangeSize(p: Pool, q: Pool, s: Row)
    requires InRange(p, s) && |q.blocks| == |p.blocks|
    ensures forall k :: 0 <= k < |s.table| ==> s.table[k] < |q.blocks|
  {
  }

  lemma RangesSize(p: Pool, q: Pool, rows: seq<Row>)
    requires |q.blocks| == |p.blocks| && forall i :: 0 <= i < |rows| ==> InRange(p, rows[i])
    ensures forall i :: 0 <= i < |rows| ==> InRange(q, rows[i])
  {
  }

  lemma CommonInRange(c: Config, y: Sys)
    requires c.Valid() && Common(c, y, [])
    ensures forall i :: 0 <= i < |y.waiting| ==> InRange(y.pool, y.waiting[i])
    ensures forall i :: 0 <= i < |y.running| ==> InRange(y.pool, y.running[i])
  {
    hide Common;
    var q := y.waiting + y.running + [];
    forall i | 0 <= i < |y.waiting| ensures InRange(y.pool, y.waiting[i]) {
      TablesInRange(c, y, [], i);
      assert q[i] == y.waiting[i];
    }
    forall i | 0 <= i < |y.running| ensures InRange(y.pool, y.running[i]) {
      TablesInRange(c, y, [], |y.waiting| + i);
      assert q[|y.waiting| + i] == y.running[i];
    }
  }

  lemma ReleaseNothing(p: Pool)
    ensures Release(p, []) == p
  {
  }

  /** The first i rows are dealt with; p is the pool by now. */
  ghost predicate Cancelling(p0: Pool, q: seq<Row>, targets: set<nat>, p: Pool, i: nat, kept: seq<Row>, ids: seq<nat>) {
    && i <= |q|
    && var r := CancelQueue(p, q[i..], targets);
       CancelQueue(p0, q, targets) == Removed(r.pool, kept + r.kept, ids + r.ids)
  }

  lemma CancelStart(p: Pool, q: seq<Row>, targets: set<nat>)
    ensures Cancelling(p, q, targets, p, 0, [], [])
  {
    hide CancelQueue;
    assert q[0..] == q;
    var r := CancelQueue(p, q, targets);
    assert [] + r.kept == r.kept && [] + r.ids == r.ids;
  }

  lemma CancelStep(p0: Pool, q: seq<Row>, targets: set<nat>, p: Pool, i: nat, kept: seq<Row>, ids: seq<nat>)
    requires i < |q| && Cancelling(p0, q, targets, p, i, kept, ids)
    ensures if q[i].id in targets then Cancelling(p0, q, targets, Release(p, q[i].table), i + 1, kept, ids + [q[i].id])
            else Cancelling(p0, q, targets, p, i + 1, kept + [q[i]], ids)
  {
    hide Release;
    var a := q[i..];
    assert a[0] == q[i] && a[1..] == q[i + 1..];
    var r := CancelQueue(if q[i].id in targets then Release(p, q[i].table) else p, a[1..], targets);
    assert kept + ([q[i]] + r.kept) == kept + [q[i]] + r.kept;
    assert ids + ([q[i].id] + r.ids) == ids + [q[i].id] + r.ids;
  }

  lemma CancelEnd(p0: Pool, q: seq<Row>, targets: set<nat>, p: Pool, kept: seq<Row>, ids: seq<nat>)
    requires Cancelling(p0, q, targets, p, |q|, kept, ids)
    ensures CancelQueue(p0, q, targets) == Removed(p, kept, ids)
  {
    assert q[|q|..] == [] && kept + [] == kept && ids + [] == ids;
  }

  lemma WaitingApart(w: seq<Sequence>, r: seq<Sequence>)
    requires Separate(w + r + [])
    ensures Separate(w) && forall k :: 0 <= k < |r| ==> r[k] !in w
  {
    var a := w + r + [];
    forall k, l | 0 <= k < l < |w| ensures w[k] != w[l] { assert a[k] != a[l]; }
    forall k | 0 <= k < |r| ensures r[k] !in w {
      forall l | 0 <= l < |w| ensures w[l] != r[k] { assert a[l] != a[|w| + k]; }
    }
  }

  predicate Includes(q: seq<Row>, targets: set<nat>) {
    exists i :: 0 <= i < |q| && q[i].id in targets
  }

  lemma NamedEither(y: Sys, targets: set<nat>)
    ensures NamesQueued(y, targets) <==> Includes(y.waiting, targets) || Includes(y.running, targets)
  {
    if i :| 0 <= i < |y.waiting| && y.waiting[i].id in targets { assert Rows(y)[i].id in targets; }
    if i :| 0 <= i < |y.running| && y.running[i].id in targets { assert Rows(y)[|y.waiting| + i].id in targets; }
  }

  lemma IdleCommon(c: Config, y: Sys)
    requires c.Valid() && Idle(c, y)
    ensures Common(c, y, [])
  {
  }

  lemma CancelSucceeds(c: Config, y: Sys, targets: set<nat>)
    requires c.Valid() && Common(c, y, [])
    ensures var a := CancelQueue(y.pool, y.waiting, targets);
      var b := CancelQueue(a.pool, y.running, targets);
      Requests.Cancel(y, targets) ==
        CancelOk(Sys(b.pool, a.kept, b.kept, if y.mid.Some? && y.mid.value in targets then None else y.mid), a.ids + b.ids)
  {
    hide Common, CancelQueue, MidConsistent, Unnamed, Named, Idle;
    CancelKeeps(c, y, targets);
  }

  lemma NotIn(w: seq<Sequence>, r: seq<Sequence>, w': seq<Sequence>)
    requires (forall k :: 0 <= k < |w| ==> w[k] !in r) && forall x :: x in w' ==> x in w
    ensures forall k :: 0 <= k < |w'| ==> w'[k] !in r
  {
    forall k | 0 <= k < |w'| ensures w'[k] !in r {
      assert w'[k] in w;
      var l :| 0 <= l < |w| && w[l] == w'[k];
    }
  }

  lemma KeptApart(w: seq<Sequence>, r: seq<Sequence>, w': seq<Sequence>, r': seq<Sequence>)
    requires Separate(w + r + []) && Separate(w') && Separate(r')
    requires (forall x :: x in w' ==> x in w) && (forall x :: x in r' ==> x in r)
    ensures Separate(w' + r' + [])
  {
    QueuesApart(w, r);
    var b := w' + r' + [];
    forall k, l | 0 <= k < l < |b| ensures b[k] != b[l] {
      if l < |w'| {
        assert w'[k] != w'[l];
      } else if k < |w'| {
        assert b[k] in w' && b[l] in r';
        var m :| 0 <= m < |w| && w[m] == b[k];
      } else {
        assert r'[k - |w'|] != r'[l - |w'|];
      }
    }
  }

  /** What publishing a row and advancing it needs of its table. */
  ghost predicate Committable(c: Config, p: Pool, s: Row)
    requires c.Valid()
  {
    && s.cached + s.sched <= |s.toks| && Full(c, s.cached + s.sched) <= |s.table|
    && forall k :: 0 <= k < |s.table| ==> s.table[k] < |p.blocks|
  }

  lemma CommittableSize(c: Config, p: Pool, q: Pool, s: Row)
    requires c.Valid() && Committable(c, p, s) && |q.blocks| == |p.blocks|
    ensures Committable(c, q, s)
  {
  }

  lemma PostRowIs(c: Config, p: Pool, s: Row, t: Token)
    requires c.Valid()
    ensures var q := Allocator.HashBlocks(c, p, s);
      var s1 := s.(cached := s.cached + s.sched, sched := 0);
      var g := s1.(toks := s.toks + [t]);
      var finished := (!s.ignoreEos && t == c.eos) || |g.toks| - s.prompt >= s.maxTokens;
      PostRow(c, p, s, t) ==
        if s1.cached < |s.toks| then Posted(q, s1, [])
        else if finished then Posted(Release(q, s.table), Cleared(g).(status := Finished), [Event(s.id, t, true)])
        else Posted(q, g, [Event(s.id, t, false)])
  {
    hide Allocator.HashBlocks, Release;
    assert (s.toks + [t])[|s.toks + [t]| - 1] == t;
  }

  lemma {:induction false} HashFromSize(c: Config, p: Pool, s: Row, i: nat, end: nat, h: int)
    ensures |HashFrom(c, p, s, i, end, h).blocks| == |p.blocks|
    decreases end - i
  {
    if i < end && i < |s.table| {
      hide BlockTokens;
      var blk := BlockTokens(s.toks, i, c.blockSize);
      HashFromSize(c, Publish(p, s.table[i], c.hash(h, blk), blk), s, i + 1, end, c.hash(h, blk));
    }
  }

  lemma HashSize(c: Config, p: Pool, s: Row)
    requires c.Valid()
    ensures |Allocator.HashBlocks(c, p, s).blocks| == |p.blocks|
  {
    HashBlocksUnfolds(c, p, s);
    HashFromSize(c, p, s, Full(c, s.cached), Full(c, s.cached + s.sched), SeedHash(p, s, Full(c, s.cached)));
  }

  lemma {:induction false} ReleaseSize(p: Pool, t: seq<nat>)
    ensures |Release(p, t).blocks| == |p.blocks|
    decreases |t|
  {
    if t != [] { ReleaseSize(Unref(p, t[|t| - 1]), t[..|t| - 1]); }
  }

  lemma Shift(a: seq<Sequence>, s: Sequence, b: seq<Sequence>)
    ensures a + ([s] + b) == a + [s] + b
  {
  }

  lemma MiddleApart(a: seq<Sequence>, s: Sequence, b: seq<Sequence>)
    requires Separate(a + ([s] + b))
    ensures s !in a && s !in b && Separate(a + b)
  {
    var q, t := a + ([s] + b), a + b;
    assert q[|a|] == s;
    forall k | 0 <= k < |t| ensures t[k] == q[if k < |a| then k else k + 1] {}
    forall k, l | 0 <= k < l < |t| ensures t[k] != t[l] {
      assert q[if k < |a| then k else k + 1] != q[if l < |a| then l else l + 1];
    }
    forall x | x in a ensures x != s { var k :| 0 <= k < |a| && a[k] == x; assert q[k] != q[|a|]; }
    forall x | x in b ensures x != s { var k :| 0 <= k < |b| && b[k] == x; assert q[|a|] != q[|a| + 1 + k]; }
  }

  /** The queue without the first occurrence of a request. */
  function Drop(q: seq<Sequence>, s: Sequence): seq<Sequence> {
    if q == [] then [] else if q[0] == s then q[1..] else [q[0]] + Drop(q[1..], s)
  }

  lemma {:induction false} DropIs(a: seq<Sequence>, s: Sequence, b: seq<Sequence>)
    requires s !in a
    ensures Drop(a + ([s] + b), s) == a + b
  {
    if a == [] {
      assert [] + ([s] + b) == [s] + b && [] + b == b;
    } else {
      assert a[0] in a && (a + ([s] + b))[1..] == a[1..] + ([s] + b);
      DropIs(a[1..], s, b);
      assert [a[0]] + (a[1..] + b) == a + b;
    }
  }

  lemma {:induction false} SurvivingAppend(q: seq<Row>, s: Row)
    ensures Surviving(q + [s]) == Surviving(q) + (if s.status == Finished then [] else [s])
  {
    if q == [] {
      assert [] + [s] == [s] && [s][1..] == [];
    } else {
      assert (q + [s])[1..] == q[1..] + [s];
      SurvivingAppend(q[1..], s);
    }
  }

  /** The first i rows are committed, into `done` and `ev`; p is the pool by now. */
  ghost predicate Posting(c: Config, p0: Pool, q: seq<Row>, tokens: seq<Token>, p: Pool, i: nat, done: seq<Row>, ev: seq<Event>)
    requires c.Valid() && |q| == |tokens|
  {
    && i <= |q| && |done| == i
    && var r := PostRows(c, p, q[i..], tokens[i..]);
       PostRows(c, p0, q, tokens) == PostedAll(r.pool, done + r.rows, ev + r.events)
  }

  lemma PostingStart(c: Config, p: Pool, q: seq<Row>, tokens: seq<Token>)
    requires c.Valid() && |q| == |tokens|
    ensures Posting(c, p, q, tokens, p, 0, [], []) && Surviving([]) == []
  {
    hide PostRows;
    assert q[0..] == q && tokens[0..] == tokens;
    var r := PostRows(c, p, q, tokens);
    assert [] + r.rows == r.rows && [] + r.events == r.events;
  }

  lemma PostingStep(c: Config, p0: Pool, q: seq<Row>, tokens: seq<Token>, p: Pool, i: nat, done: seq<Row>, ev: seq<Event>)
    requires c.Valid() && |q| == |tokens| && i < |q| && Posting(c, p0, q, tokens, p, i, done, ev)
    ensures var r := PostRow(c, p, q[i], tokens[i]);
      Posting(c, p0, q, tokens, r.pool, i + 1, done + [r.row], ev + r.events)
  {
    hide PostRow;
    var a, t := q[i..], tokens[i..];
    assert a[0] == q[i] && a[1..] == q[i + 1..] && t[0] == tokens[i] && t[1..] == tokens[i + 1..];
    var r := PostRow(c, p, q[i], tokens[i]);
    var rest := PostRows(c, r.pool, a[1..], t[1..]);
    assert done + ([r.row] + rest.rows) == done + [r.row] + rest.rows;
    assert ev + (r.events + rest.events) == ev + r.events + rest.events;
  }

  lemma PostingEnd(c: Config, p0: Pool, q: seq<Row>, tokens: seq<Token>, p: Pool, done: seq<Row>, ev: seq<Event>)
    requires c.Valid() && |q| == |tokens| && Posting(c, p0, q, tokens, p, |q|, done, ev)
    ensures PostRows(c, p0, q, tokens) == PostedAll(p, done, ev)
  {
    assert q[|q|..] == [] && done + [] == done && ev + [] == ev;
  }

  lemma PreemptIs(y: Sys, s: Row)
    requires Scheduling.Preempt(y, s).Ok?
    ensures Scheduling.Preempt(y, s).value ==
      Sys(Release(y.pool, s.table), y.waiting + [Preempted(s)], y.running, if y.mid == Some(s.id) then None else y.mid)
  {
    hide MidConsistent, Release;
  }

  /** One round of making room: the partial prefill goes first. */
  lemma ReclaimHeadStep(c: Config, y: Sys, cur: Row, extra: seq<Row>)
    requires c.Valid() && Common(c, y, extra) && NoChunk(y) && AllDecoding(y.running)
    requires !Allocator.CanAppend(c, y.pool, cur) && y.mid.Some? && y.waiting != [] && Some(y.waiting[0].id) == y.mid
    ensures var r := Scheduling.Preempt(y.(waiting := y.waiting[1..]), y.waiting[0]);
      && r.Ok? && r.value.mid == None && r.value.running == y.running
      && Common(c, r.value, extra) && NoChunk(r.value)
      && Scheduling.MakeRoom(c, y, cur) == Scheduling.MakeRoom(c, r.value, cur)
    ensures forall k :: 0 <= k < |y.waiting[0].table| ==> y.waiting[0].table[k] < |y.pool.blocks|
  {
    TablesInRange(c, y, extra, 0);
    assert (y.waiting + y.running + extra)[0] == y.waiting[0];
    hide Scheduling.Preempt, Allocator.CanAppend, Common;
    ReclaimPartial(c, y, extra);
  }

  /** A request moved to the back of the waiting queue keeps all objects apart. */
  lemma Requeued(w: seq<Sequence>, r: seq<Sequence>, hand: seq<Sequence>, i: nat, w': seq<Sequence>)
    requires Separate(w + r + hand) && i < |w| && w' == w[..i] + w[i + 1..] + [w[i]]
    ensures Separate(w' + r + hand)
  {
    var a, b := w + r + hand, w' + r + hand;
    forall k, l | 0 <= k < l < |b| ensures b[k] != b[l] {
      var k' := if k < i then k else if k < |w| - 1 then k + 1 else if k == |w| - 1 then i else k;
      var l' := if l < i then l else if l < |w| - 1 then l + 1 else if l == |w| - 1 then i else l;
      assert b[k] == a[k'] && b[l] == a[l'] && k' != l';
    }
  }

  lemma HeadIs(q: seq<Sequence>, s: Sequence)
    requires s in q && Distinct(Views(q))
    ensures q[0].id == s.id <==> q[0] == s
  {
    var i :| 0 <= i < |q| && q[i] == s;
    if i > 0 { assert Views(q)[0].id != Views(q)[i].id; }
  }
}
