/** One scheduling decision: decode rows first, then first-come chunked prefill.
    Every `raise` of the scheduler is an error value here. */
module Scheduling {
  import opened Arith
  import opened Types
  import opened Pools
  import opened Allocator
  import opened Queues

  /** Scheduler state between and during steps. `mid` is the partially prefilled
      request, if any. */
  datatype Sys = Sys(pool: Pool, waiting: seq<Row>, running: seq<Row>, mid: Option<nat>)

  datatype SchedError =
    | MidMismatch | PrefixChangedAfterAdmission | AllocatorRefused | TwoPartials
    | NothingPending | NothingScheduled

  datatype Result<+T> = Ok(value: T) | Err(error: SchedError)

  datatype Scheduled = Scheduled(sys: Sys, ids: seq<nat>, prefill: bool)

  /** The queue invariant the scheduler checks at run time. */
  predicate MidConsistent(y: Sys) {
    match y.mid
    case None => y.waiting == [] || y.waiting[0].table == []
    case Some(id) => y.waiting != [] && y.waiting[0].id == id && y.waiting[0].table != []
  }

  function Preempted(s: Row): Row {
    Cleared(s).(status := Waiting, prefill := true)
  }

  /** Preempt a row that has already been taken out of its queue. */
  function Preempt(y: Sys, s: Row): Result<Sys> {
    var y' := Sys(
      Release(y.pool, s.table),
      y.waiting + [Preempted(s)],
      y.running,
      if y.mid == Some(s.id) then None else y.mid);
    if MidConsistent(y') then Ok(y') else Err(MidMismatch)
  }

  datatype Room = Room(sys: Sys, found: bool)

  /** Reclaim blocks until the decoding row can append: the partial prefill first,
      then the youngest decoders, at last the row itself. */
  function MakeRoom(c: Config, y: Sys, cur: Row): (r: Result<Room>)
    requires c.Valid()
    ensures r.Ok? ==> |r.value.sys.running| <= |y.running|
    decreases (if y.mid.Some? then 1 else 0) + |y.running|
  {
    if CanAppend(c, y.pool, cur) then Ok(Room(y, true))
    else if y.mid.Some? then
      if y.waiting == [] || Some(y.waiting[0].id) != y.mid then Err(MidMismatch)
      else
        match Preempt(y.(waiting := y.waiting[1..]), y.waiting[0])
        case Err(e) => Err(e)
        case Ok(y') => MakeRoom(c, y', cur)
    else if y.running != [] then
      var last := |y.running| - 1;
      match Preempt(y.(running := y.running[..last]), y.running[last])
      case Err(e) => Err(e)
      case Ok(y') => MakeRoom(c, y', cur)
    else
      match Preempt(y, cur)
      case Err(e) => Err(e)
      case Ok(y') => Ok(Room(y', false))
  }

  datatype Decoded = Decoded(sys: Sys, done: seq<Row>)

  function DecodePhase(c: Config, y: Sys, done: seq<Row>): Result<Decoded>
    requires c.Valid()
    decreases |y.running|
  {
    if y.running == [] || |done| >= c.maxSeqs then Ok(Decoded(y, done))
    else
      var cur := y.running[0];
      match MakeRoom(c, y.(running := y.running[1..]), cur)
      case Err(e) => Err(e)
      case Ok(Room(y', false)) => DecodePhase(c, y', done)
      case Ok(Room(y', true)) =>
        var (p', cur') := MayAppend(c, y'.pool, cur.(sched := 1, prefill := false));
        DecodePhase(c, y'.(pool := p'), done + [cur'])
  }

  /** How the head of the waiting queue fares with the remaining token budget. */
  datatype Placement =
    | Placed(pool: Pool, row: Row, work: int)   // blocks attached, row.sched set
    | NotAdmitted                               // whole-request admission refused
    | NoBlocks                                  // a partial prefill could not grow
    | Broken(error: SchedError)

  function Place(c: Config, p: Pool, s: Row, remaining: nat): (r: Placement)
    requires c.Valid()
    ensures r.Placed? ==> r.row.sched <= r.work && r.row.cached + r.work == |r.row.toks|
  {
    if s.table == [] then
      match CanAllocate(c, p, s)
      case None => NotAdmitted
      case Some(nc) =>
        var work := |s.toks| - nc * c.blockSize;
        var n := Min(work, remaining);
        if n <= 0 then Broken(AllocatorRefused)
        else
          match AllocateIncremental(c, p, s, nc, nc * c.blockSize + n)
          case Done(p', s') => Placed(p', s'.(sched := n), work)
          case NoRoom => Broken(PrefixChangedAfterAdmission)
          case Fail(_) => Broken(AllocatorRefused)
    else
      var work := |s.toks| - s.cached;
      var n := Min(work, remaining);
      if n <= 0 then Broken(AllocatorRefused)
      else
        match Extend(c, p, s, s.cached + n)
        case Done(p', s') => Placed(p', s'.(sched := n), work)
        case NoRoom => NoBlocks
        case Fail(_) => Broken(AllocatorRefused)
  }

  /** The state after the head of the waiting queue got its chunk. */
  function Placing(y: Sys, pool: Pool, s: Row, work: int): Sys
    requires y.waiting != []
  {
    if s.cached + s.sched == |s.toks| then
      Sys(pool, y.waiting[1..], y.running + [s.(status := Running)],
          if y.mid == Some(s.id) then None else y.mid)
    else
      Sys(pool, [s] + y.waiting[1..], y.running, y.mid)
  }

  datatype Filled = Filled(sys: Sys, ids: seq<nat>)

  function FillPhase(c: Config, y: Sys, ids: seq<nat>, tokens: nat): Result<Filled>
    requires c.Valid()
    decreases |y.waiting|, if y.waiting != [] && y.waiting[0].table != [] then 1 else 0
  {
    if y.waiting == [] || |ids| >= c.maxSeqs || tokens >= c.budget then Ok(Filled(y, ids))
    else
      var s := y.waiting[0];
      match Place(c, y.pool, s, c.budget - tokens)
      case NotAdmitted => Ok(Filled(y, ids))
      case Broken(e) => Err(e)
      case NoBlocks =>
        if y.mid != Some(s.id) then Err(MidMismatch)
        else (
          match Preempt(y.(waiting := y.waiting[1..]), s.(sched := 0))
          case Err(e) => Err(e)
          case Ok(y') => if ids != [] then Ok(Filled(y', ids)) else FillPhase(c, y', ids, tokens))
      case Placed(pool, s', work) =>
        var y' := Placing(y, pool, s', work);
        if s'.sched < work then
          if y'.mid.Some? && y'.mid != Some(s.id) then Err(TwoPartials)
          else Ok(Filled(y'.(mid := Some(s.id)), ids + [s.id]))
        else FillPhase(c, y', ids + [s.id], tokens + s'.sched)
  }

  function Schedule(c: Config, y: Sys): Result<Scheduled>
    requires c.Valid()
  {
    if !MidConsistent(y) then Err(MidMismatch)
    else
      match DecodePhase(c, y, [])
      case Err(e) => Err(e)
      case Ok(Decoded(y1, done)) =>
        match FillPhase(c, y1.(running := done + y1.running), Ids(done), |done|)
        case Err(e) => Err(e)
        case Ok(Filled(y2, ids)) =>
          if ids == [] then
            Err(if y2.waiting == [] && y2.running == [] then NothingPending else NothingScheduled)
          else if !MidConsistent(y2) then Err(MidMismatch)
          else Ok(Scheduled(y2, ids, |ids| > |done|))
  }
}
