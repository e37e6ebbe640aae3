/** Whom a scheduling decision serves: the decode phase keeps as many requests as the pool
    can hold and gives up the youngest, and the fill phase wastes neither a slot nor a token
    of the budget. */
module Policy {
  import opened Arith
  import opened Types
  import opened Pools
  import opened Allocator
  import opened Queues
  import opened Evolution
  import opened Scheduling
  import opened States
  import opened Progress

  // ----- what rows hold and what they lack -----

  /** The blocks that appear in the tables of some rows. */
  ghost function Blocks(q: seq<Row>): set<nat> {
    set b | b in Owners(q)
  }

  /** Blocks a row lacks to hold all its tokens. */
  function Lack(c: Config, s: Row): int
    requires c.Valid()
  {
    CeilDiv(|s.toks|, c.blockSize) - |s.table|
  }

  function Lacks(c: Config, q: seq<Row>): int
    requires c.Valid()
  {
    if q == [] then 0 else Lack(c, q[0]) + Lacks(c, q[1..])
  }

  /** The pool can hold these rows with all their tokens. */
  ghost predicate Holds(c: Config, held: seq<Row>, growing: seq<Row>)
    requires c.Valid()
  {
    |Blocks(held + growing)| + Lacks(c, growing) <= c.numBlocks
  }

  lemma BlocksConcat(a: seq<Row>, b: seq<Row>)
    ensures Blocks(a + b) == Blocks(a) + Blocks(b)
  {
    OwnersConcat(a, b);
  }

  lemma BlocksOfQuiet(q: seq<Row>)
    requires AllQuiet(q)
    ensures Blocks(q) == {}
  {
    OwnersNone(q);
  }

  /** The free list is what the rows do not hold. */
  lemma FreeIs(c: Config, p: Pool, q: seq<Row>)
    requires c.Valid() && Held(c, p, q)
    ensures |p.free| == c.numBlocks - |Blocks(q)| && Blocks(q) == p.used
  {
    hide AllOk, Distinct, Owners, Owned, FreeList, IndexAgrees;
    Conservation(p);
    UsedAre(p, q);
  }

  lemma UsedAre(p: Pool, q: seq<Row>)
    requires FreeList(p) && Owned(p, Owners(q))
    ensures Blocks(q) == p.used
  {
  }

  lemma DecodingLack(c: Config, p: Pool, s: Row)
    requires c.Valid() && RowOk(c, p, s) && Decoding(s)
    ensures 0 <= Lack(c, s) <= 1
    ensures forall q :: CanAppend(c, q, s) <==> |q.free| >= Lack(c, s)
  {
    hide Contents, Fits, CeilDiv;
    AppendTest(s.cached, c.blockSize);
  }

  lemma {:induction false} LacksNonNegative(c: Config, p: Pool, q: seq<Row>)
    requires c.Valid() && AllDecoding(q) && forall s :: s in q ==> RowOk(c, p, s)
    ensures Lacks(c, q) >= 0
  {
    hide RowOk, Decoding, Lack;
    if q != [] {
      assert q[0] in q && Decoding(q[0]);
      DecodingLack(c, p, q[0]);
      forall i | 0 <= i < |q| - 1 ensures Decoding(q[1..][i]) { assert Decoding(q[i + 1]); }
      LacksNonNegative(c, p, q[1..]);
    }
  }

  // ----- the order in which rows are given up -----

  /** The queue entries of preempted rows, youngest first. */
  function Requeue(q: seq<Row>): seq<Row> {
    if q == [] then [] else Requeue(q[1..]) + [Preempted(q[0])]
  }

  lemma {:induction false} RequeueConcat(a: seq<Row>, b: seq<Row>)
    ensures Requeue(a + b) == Requeue(b) + Requeue(a)
  {
    if a == [] {
      assert a + b == b && Requeue(b) + [] == Requeue(b);
    } else {
      assert (a + b)[1..] == a[1..] + b;
      RequeueConcat(a[1..], b);
    }
  }

  /** The waiting queue once the half-prefilled head, if any, has been reclaimed. */
  function HeadReclaimed(w: seq<Row>, mid: Option<nat>): seq<Row> {
    if mid.Some? && w != [] then w[1..] + [Preempted(w[0])] else w
  }

  /** What making room for cur gives up: nothing while blocks are free; otherwise the
      half-prefilled head, then running rows from the back, no more than necessary, and the
      row itself only when nobody is left. */
  ghost predicate RoomIs(c: Config, y: Sys, cur: Row, extra: seq<Row>, r: Room)
    requires c.Valid()
  {
    var n := |r.sys.running|;
    && n <= |y.running| && r.sys.running == y.running[..n]
    && if c.numBlocks - |Blocks(Rows(y) + extra)| >= Lack(c, cur) then r == Room(y, true)
       else
         && r.sys.mid == None
         && r.sys.waiting == HeadReclaimed(y.waiting, y.mid) + Requeue(y.running[n..]) + (if r.found then [] else [Preempted(cur)])
         && (y.mid.None? && r.found ==> n < |y.running|)
         && (n < |y.running| ==> c.numBlocks - |Blocks(y.running[..n + 1] + extra)| < Lack(c, cur))
         && (!r.found ==> n == 0 && c.numBlocks - |Blocks(extra)| < Lack(c, cur))
  }

  lemma PreemptIs(y: Sys, s: Row)
    requires Preempt(y, s).Ok?
    ensures Preempt(y, s).value.waiting == y.waiting + [Preempted(s)] && Preempt(y, s).value.running == y.running
  {
  }

  lemma RoomTest(c: Config, y: Sys, cur: Row, done: seq<Row>)
    requires c.Valid() && Common(c, y, done + [cur]) && Decoding(cur)
    ensures CanAppend(c, y.pool, cur) <==> c.numBlocks - |Blocks(Rows(y) + (done + [cur]))| >= Lack(c, cur)
  {
    hide Held, Decoding, Blocks, CanAppend, Lack;
    var q := y.waiting + y.running + (done + [cur]);
    assert q[|q| - 1] == cur;
    HeldMember(c, y.pool, q, cur);
    DecodingLack(c, y.pool, cur);
    FreeIs(c, y.pool, q);
  }

  /** Without a half-prefilled head only running and scheduled rows hold blocks. */
  lemma QuietWaiting(c: Config, y: Sys, extra: seq<Row>)
    requires c.Valid() && Common(c, y, extra) && y.mid.None?
    ensures Blocks(Rows(y) + extra) == Blocks(y.running + extra)
  {
    hide Held, Quiet, Blocks;
    BlocksOfQuiet(y.waiting);
    BlocksConcat(y.waiting, y.running + extra);
    assert Rows(y) + extra == y.waiting + (y.running + extra);
  }

  lemma {:induction false} RoomTaken(c: Config, y: Sys, cur: Row, done: seq<Row>)
    requires c.Valid() && Common(c, y, done + [cur]) && NoChunk(y) && AllDecoding(y.running) && Decoding(cur)
    ensures MakeRoom(c, y, cur).Ok? && RoomIs(c, y, cur, done + [cur], MakeRoom(c, y, cur).value)
    decreases (if y.mid.Some? then 1 else 0) + |y.running|
  {
    hide Common, Evolves, CanAppend, Preempt, Lack, Blocks, Preempted, Rows;
    var extra := done + [cur];
    MakeRoomKeeps(c, y, cur, done);
    RoomTest(c, y, cur, done);
    if CanAppend(c, y.pool, cur) {
      assert y.running[..|y.running|] == y.running;
    } else if y.mid.Some? {
      MidHead(c, y, extra);
      ReclaimPartial(c, y, extra);
      PreemptIs(y.(waiting := y.waiting[1..]), y.waiting[0]);
      var y' := Preempt(y.(waiting := y.waiting[1..]), y.waiting[0]).value;
      RoomTaken(c, y', cur, done);
      assert y'.waiting == HeadReclaimed(y.waiting, y.mid);
      var n := |MakeRoom(c, y', cur).value.sys.running|;
      if n == |y.running| { assert y.running[n..] == []; assert y'.waiting + [] + [] == y'.waiting; }
    } else if y.running != [] {
      var last := |y.running| - 1;
      ReclaimLast(c, y, extra);
      PreemptIs(y.(running := y.running[..last]), y.running[last]);
      var y' := Preempt(y.(running := y.running[..last]), y.running[last]).value;
      RoomTaken(c, y', cur, done);
      QuietWaiting(c, y, extra);
      LastGivenUp(c, y, y', cur, extra, MakeRoom(c, y', cur).value);
    } else {
      ReclaimSelf(c, y, cur, done);
      PreemptIs(y, cur);
      QuietWaiting(c, y, extra);
      assert y.running + extra == extra;
      assert y.waiting + [] + [Preempted(cur)] == y.waiting + [Preempted(cur)];
    }
  }

  lemma LastGivenUp(c: Config, y: Sys, y': Sys, cur: Row, extra: seq<Row>, r: Room)
    requires c.Valid() && y.mid.None? && y.running != []
    requires var last := |y.running| - 1;
      y'.waiting == y.waiting + [Preempted(y.running[last])] && y'.running == y.running[..last] && y'.mid.None?
    requires c.numBlocks - |Blocks(Rows(y) + extra)| < Lack(c, cur) && Blocks(Rows(y) + extra) == Blocks(y.running + extra)
    requires RoomIs(c, y', cur, extra, r)
    ensures RoomIs(c, y, cur, extra, r)
  {
    hide Lack, Blocks, Preempted, Rows, Requeue;
    var last, n := |y.running| - 1, |r.sys.running|;
    var s := y.running[last];
    assert y.running[n..] == y.running[..last][n..] + [s];
    RequeueConcat(y.running[..last][n..], [s]);
    RequeueOne(s);
    assert y.running[..n] == y.running[..last][..n];
    if c.numBlocks - |Blocks(Rows(y') + extra)| >= Lack(c, cur) {
      assert n == last && y.running[..n + 1] == y.running;
      RequeueNone();
      assert y.running[..last][n..] == [];
    } else {
      var w, more, own := y.waiting, Requeue(y.running[..last][n..]), if r.found then [] else [Preempted(cur)];
      assert w + [Preempted(s)] + more + own == w + ([Preempted(s)] + more) + own;
      if n < last {
        assert y.running[..last][..n + 1] == y.running[..n + 1];
      } else {
        assert y.running[..n + 1] == y.running;
      }
    }
  }

  lemma RequeueNone()
    ensures Requeue([]) == []
  {
  }

  lemma RequeueOne(s: Row)
    ensures Requeue([s]) == [Preempted(s)]
  {
    assert [s][1..] == [];
  }

  // ----- the decode phase -----

  /** The row as the decode phase schedules it: one token, and a table for all its tokens. */
  ghost predicate PlannedAs(c: Config, s: Row, s': Row)
    requires c.Valid()
  {
    && s' == s.(sched := 1, prefill := false, table := s'.table)
    && s.table <= s'.table && |s'.table| == CeilDiv(|s.toks|, c.blockSize)
  }

  /** The outcome of the decode phase: m rows are scheduled, the longest prefix of the
      running queue that the pool can hold. If it can hold them all beside the
      half-prefilled head, nothing is given up. Otherwise that head is given up first, and
      then exactly the rows beyond the prefix, the youngest first. */
  ghost predicate KeptMost(c: Config, y: Sys, done: seq<Row>, d: Decoded, m: nat)
    requires c.Valid()
  {
    && m <= |y.running| && |d.done| == |done| + m && done <= d.done && d.sys.running == []
    && (forall i :: 0 <= i < m ==> PlannedAs(c, y.running[i], d.done[|done| + i]))
    && if Holds(c, y.waiting + done, y.running) then
         m == |y.running| && d.sys.waiting == y.waiting && d.sys.mid == y.mid
       else
         && d.sys.mid == None && d.sys.waiting == HeadReclaimed(y.waiting, y.mid) + Requeue(y.running[m..])
         && Holds(c, done, y.running[..m])
         && (m < |y.running| ==> !Holds(c, done, y.running[..m + 1]))
  }

  /** The row gets the blocks it lacks, none of them taken before. */
  ghost predicate Gains(c: Config, s: Row, s': Row, taken: set<nat>)
    requires c.Valid()
  {
    exists b: set<nat> :: |b| == Lack(c, s) && Blocks([s']) == Blocks([s]) + b && b !! taken
  }

  /** Scheduling a row turns what it lacks into a block it holds. */
  lemma PlanBlocks(c: Config, y: Sys, cur: Row, done: seq<Row>)
    requires c.Valid() && Common(c, y, done + [cur]) && Decoding(cur) && CanAppend(c, y.pool, cur)
    ensures var (p, cur') := MayAppend(c, y.pool, cur.(sched := 1, prefill := false));
      && PlannedAs(c, cur, cur')
      && Gains(c, cur, cur', Blocks(Rows(y) + (done + [cur])))
  {
    var q := y.waiting + y.running + (done + [cur]);
    assert q[|q| - 1] == cur;
    HeldMember(c, y.pool, q, cur);
    FreeIs(c, y.pool, q);
    hide Held, Blocks, RowOk;
    DecodingLack(c, y.pool, cur);
    AppendsFree(c, y.pool, cur);
  }

  lemma AppendIs(c: Config, p: Pool, s: Row)
    requires c.Valid() && CanAppend(c, p, s) && forall b :: b in p.free ==> b < |p.blocks|
    ensures MayAppend(c, p, s).1 ==
      if |s.toks| % c.blockSize == 1 then s.(table := s.table + [p.free[0]]) else s
  {
    if |s.toks| % c.blockSize == 1 {
      assert p.free[0] in p.free;
      GrowOne(p, s.table);
    }
  }

  lemma GrowOne(p: Pool, t: seq<nat>)
    requires p.free != []
    ensures Grow(p, t, 1).1 == t + [p.free[0]]
  {
    hide Take;
  }

  lemma OneMore(s: Row, s': Row, b: nat)
    requires s'.table == s.table + [b]
    ensures Blocks([s']) == Blocks([s]) + {b}
  {
    OwnersOne(s);
    OwnersOne(s');
  }

  lemma SameTable(s: Row, s': Row)
    requires s'.table == s.table
    ensures Blocks([s']) == Blocks([s])
  {
    OwnersOne(s);
    OwnersOne(s');
  }

  lemma AppendsFree(c: Config, p: Pool, cur: Row)
    requires c.Valid() && RowOk(c, p, cur) && Decoding(cur) && CanAppend(c, p, cur) && FreeList(p)
    requires 0 <= Lack(c, cur) <= 1 && |p.free| >= Lack(c, cur)
    ensures var (p', cur') := MayAppend(c, p, cur.(sched := 1, prefill := false));
      && PlannedAs(c, cur, cur')
      && Gains(c, cur, cur', p.used)
  {
    hide Contents, Fits, CeilDiv, MayAppend, Blocks;
    AppendTest(cur.cached, c.blockSize);
    var s := cur.(sched := 1, prefill := false);
    AppendIs(c, p, s);
    var cur' := MayAppend(c, p, s).1;
    if Lack(c, cur) == 1 {
      var b := {p.free[0]};
      assert p.free[0] in p.free;
      OneMore(cur, cur', p.free[0]);
      assert |b| == Lack(c, cur) && b !! p.used;
    } else {
      var none: set<nat> := {};
      SameTable(cur, cur');
      assert Blocks([cur']) == Blocks([cur]) + none;
      assert |none| == Lack(c, cur) && none !! p.used;
    }
  }

  lemma SwapCard(a: set<nat>, x: set<nat>, x': set<nat>, b: set<nat>)
    requires x' == x + b && b !! a + x
    ensures |a + x'| == |a + x| + |b|
  {
    assert a + x' == (a + x) + b;
  }

  /** Holding a scheduled row is holding the row with what it lacks. */
  lemma HoldsShift(c: Config, held: seq<Row>, cur: Row, cur': Row, q: seq<Row>, b: set<nat>)
    requires c.Valid() && |b| == Lack(c, cur) && Blocks([cur']) == Blocks([cur]) + b
    requires b !! Blocks(held) + Blocks([cur]) + Blocks(q)
    ensures Holds(c, held + [cur'], q) <==> Holds(c, held, [cur] + q)
  {
    hide Blocks, Lack;
    BlocksConcat(held + [cur'], q);
    BlocksConcat(held, [cur']);
    BlocksConcat(held, [cur] + q);
    BlocksConcat([cur], q);
    SwapCard(Blocks(held) + Blocks(q), Blocks([cur]), Blocks([cur']), b);
    assert Blocks(held + [cur'] + q) == Blocks(held) + Blocks(q) + Blocks([cur']);
    assert Blocks(held + ([cur] + q)) == Blocks(held) + Blocks(q) + Blocks([cur]);
    assert ([cur] + q)[1..] == q;
  }

  /** Nothing had to be given up for the first row. */
  lemma RestEnough(c: Config, y: Sys, y2: Sys, cur': Row, done: seq<Row>, d: Decoded, m: nat, b: set<nat>)
    requires c.Valid() && y.running != [] && PlannedAs(c, y.running[0], cur')
    requires y2.waiting == y.waiting && y2.mid == y.mid && y2.running == y.running[1..]
    requires |b| == Lack(c, y.running[0]) && Blocks([cur']) == Blocks([y.running[0]]) + b
    requires b !! Blocks(y.waiting) + Blocks(done) + Blocks(y.running)
    requires KeptMost(c, y2, done + [cur'], d, m)
    ensures KeptMost(c, y, done, d, m + 1)
  {
    hide Blocks, Lack, PlannedAs, Holds;
    var cur, q := y.running[0], y.running[1..];
    assert y.running == [cur] + q;
    BlocksConcat([cur], q);
    BlocksConcat(y.waiting, done);
    HoldsShift(c, y.waiting + done, cur, cur', q, b);
    assert y.waiting + done + [cur'] == y2.waiting + (done + [cur']);
    FirstPlanned(c, y, cur', done, d, m, q);
    if !Holds(c, y.waiting + done, y.running) {
      PrefixShift(c, cur, cur', done, q, m, b);
      if m < |q| { PrefixShift(c, cur, cur', done, q, m + 1, b); }
    }
  }

  lemma PrefixShift(c: Config, cur: Row, cur': Row, done: seq<Row>, q: seq<Row>, m: nat, b: set<nat>)
    requires c.Valid() && |b| == Lack(c, cur) && Blocks([cur']) == Blocks([cur]) + b && m <= |q|
    requires b !! Blocks(done) + Blocks([cur]) + Blocks(q)
    ensures Holds(c, done + [cur'], q[..m]) <==> Holds(c, done, ([cur] + q)[..m + 1])
  {
    hide Blocks, Lack, Holds;
    assert q == q[..m] + q[m..];
    BlocksConcat(q[..m], q[m..]);
    HoldsShift(c, done, cur, cur', q[..m], b);
    assert ([cur] + q)[..m + 1] == [cur] + q[..m];
  }

  lemma FirstPlanned(c: Config, y: Sys, cur': Row, done: seq<Row>, d: Decoded, m: nat, q: seq<Row>)
    requires c.Valid() && y.running != [] && PlannedAs(c, y.running[0], cur') && m <= |q| <= |y.running| - 1
    requires q == y.running[1..][..|q|]
    requires done + [cur'] <= d.done && |d.done| == |done| + 1 + m
    requires forall i :: 0 <= i < m ==> PlannedAs(c, q[i], d.done[|done + [cur']| + i])
    ensures done <= d.done
    ensures forall i :: 0 <= i < m + 1 ==> PlannedAs(c, y.running[i], d.done[|done| + i])
  {
    hide PlannedAs;
    assert d.done[|done|] == (done + [cur'])[|done|] == cur';
    forall i | 0 <= i < m + 1 ensures PlannedAs(c, y.running[i], d.done[|done| + i]) {
      if i > 0 { assert q[i - 1] == y.running[i] && PlannedAs(c, q[i - 1], d.done[|done + [cur']| + (i - 1)]); }
    }
  }

  /** Making room for the first row left n of the rows behind it. */
  lemma RestShort(c: Config, y: Sys, y2: Sys, cur': Row, done: seq<Row>, d: Decoded, m: nat, b: set<nat>, n: nat)
    requires c.Valid() && y.running != [] && PlannedAs(c, y.running[0], cur')
    requires n <= |y.running| - 1 && y2.running == y.running[1..][..n] && y2.mid == None && Blocks(y2.waiting) == {}
    requires y2.waiting == HeadReclaimed(y.waiting, y.mid) + Requeue(y.running[1..][n..])
    requires !Holds(c, y.waiting + done, y.running)
    requires n < |y.running| - 1 ==>
      c.numBlocks - |Blocks(y.running[1..][..n + 1] + (done + [y.running[0]]))| < Lack(c, y.running[0])
    requires Lacks(c, y.running[1..][..if n < |y.running| - 1 then n + 1 else n]) >= 0
    requires |b| == Lack(c, y.running[0]) && Blocks([cur']) == Blocks([y.running[0]]) + b
    requires b !! Blocks(done) + Blocks([y.running[0]]) + Blocks(y2.running)
    requires KeptMost(c, y2, done + [cur'], d, m)
    ensures KeptMost(c, y, done, d, m + 1)
  {
    hide Blocks, Lack, PlannedAs, Holds, HeadReclaimed, Requeue, Lacks;
    var cur, rest, q := y.running[0], y.running[1..], y2.running;
    FirstPlanned(c, y, cur', done, d, m, q);
    OnlyDone(c, y2, done + [cur'], q);
    assert y.running[..m + 1] == ([cur] + q)[..m + 1];
    PrefixShift(c, cur, cur', done, q, m, b);
    assert rest[n..] == y.running[n + 1..];
    if Holds(c, y2.waiting + (done + [cur']), q) {
      assert q[..m] == q;
      assert y2.waiting == d.sys.waiting;
      if n < |rest| { TooMany(c, y, done, n); }
    } else {
      assert m < n by { assert q[..n] == q; }
      PrefixShift(c, cur, cur', done, q, m + 1, b);
      assert y.running[..m + 2] == ([cur] + q)[..m + 2];
      assert y.running[m + 1..] == q[m..] + rest[n..];
      RequeueConcat(q[m..], rest[n..]);
      var base, tail, mine := HeadReclaimed(y.waiting, y.mid), Requeue(rest[n..]), Requeue(q[m..]);
      assert base + (tail + mine) == base + tail + mine;
      NoHead(y2);
    }
  }

  lemma NoHead(y: Sys)
    requires y.mid == None
    ensures HeadReclaimed(y.waiting, y.mid) == y.waiting
  {
  }

  /** Waiting requests without blocks do not count. */
  lemma OnlyDone(c: Config, y: Sys, done: seq<Row>, q: seq<Row>)
    requires c.Valid() && Blocks(y.waiting) == {}
    ensures Holds(c, y.waiting + done, q) <==> Holds(c, done, q)
  {
    hide Blocks, Lacks;
    BlocksConcat(y.waiting, done + q);
    assert y.waiting + done + q == y.waiting + (done + q);
  }

  /** With one row more than was left, the pool would have been too small. */
  lemma TooMany(c: Config, y: Sys, done: seq<Row>, n: nat)
    requires c.Valid() && n < |y.running| - 1 && Lacks(c, y.running[1..][..n + 1]) >= 0
    requires c.numBlocks - |Blocks(y.running[1..][..n + 1] + (done + [y.running[0]]))| < Lack(c, y.running[0])
    ensures !Holds(c, done, y.running[..n + 2])
  {
    hide Blocks, Lack;
    var cur, q := y.running[0], y.running[1..][..n + 1];
    assert y.running[..n + 2] == [cur] + q;
    BlocksConcat(q, done + [cur]);
    BlocksConcat(done, [cur]);
    BlocksConcat(done, [cur] + q);
    BlocksConcat([cur], q);
    assert Blocks(done + ([cur] + q)) == Blocks(q + (done + [cur]));
    assert ([cur] + q)[1..] == q;
  }

  lemma NothingToKeep(c: Config, y: Sys, done: seq<Row>)
    requires c.Valid() && Common(c, y, done) && y.running == []
    ensures KeptMost(c, y, done, Decoded(y, done), 0)
  {
    hide Held, Blocks;
    var q := y.waiting + y.running + done;
    FreeIs(c, y.pool, q);
    assert q == y.waiting + done + [];
  }

  lemma HeldRows(c: Config, y: Sys, done: seq<Row>)
    requires c.Valid() && Common(c, y, done)
    ensures forall s :: s in y.running ==> RowOk(c, y.pool, s)
    ensures Blocks(Rows(y) + done) == Blocks(y.waiting) + Blocks(y.running) + Blocks(done)
    ensures |Blocks(Rows(y) + done)| <= c.numBlocks
    ensures y.mid.None? ==> Blocks(y.waiting) == {}
  {
    hide Held, Blocks, Quiet, Partial, RowOk;
    var q := y.waiting + y.running + done;
    forall s | s in y.running ensures RowOk(c, y.pool, s) {
      assert s in q;
      HeldMember(c, y.pool, q, s);
    }
    FreeIs(c, y.pool, q);
    BlocksConcat(y.waiting + y.running, done);
    BlocksConcat(y.waiting, y.running);
    if y.mid.None? { BlocksOfQuiet(y.waiting); }
  }

  lemma LacksOf(c: Config, y: Sys, q: seq<Row>)
    requires c.Valid() && AllDecoding(y.running) && (forall s :: s in y.running ==> RowOk(c, y.pool, s))
    requires y.running != [] && q <= y.running[1..]
    ensures Lacks(c, q) >= 0
  {
    hide RowOk, Decoding, Lack;
    forall i | 0 <= i < |q| ensures Decoding(q[i]) && RowOk(c, y.pool, q[i]) {
      assert q[i] == y.running[i + 1] && Decoding(y.running[i + 1]) && y.running[i + 1] in y.running;
    }
    LacksNonNegative(c, y.pool, q);
  }

  /** Whether blocks are free for the first row, in terms of what all rows need. */
  lemma EnoughFirst(c: Config, y: Sys, done: seq<Row>)
    requires c.Valid() && y.running != [] && Lacks(c, y.running[1..]) >= 0
    requires Holds(c, y.waiting + done, y.running)
    ensures c.numBlocks - |Blocks(Rows(y.(running := y.running[1..])) + (done + [y.running[0]]))| >= Lack(c, y.running[0])
  {
    hide Blocks, Lack;
    FrontBlocks(y, done);
  }

  /** Moving the front row changes nothing about the blocks held. */
  lemma FrontBlocks(y: Sys, done: seq<Row>)
    requires y.running != []
    ensures Blocks(Rows(y.(running := y.running[1..])) + (done + [y.running[0]])) == Blocks(y.waiting + done + y.running)
  {
    hide Blocks;
    var cur, q := y.running[0], y.running[1..];
    assert y.running == [cur] + q;
    BlocksConcat([cur], q);
    BlocksConcat(y.waiting + done, y.running);
    BlocksConcat(y.waiting, done);
    BlocksConcat(y.waiting + q, done + [cur]);
    BlocksConcat(y.waiting, q);
    BlocksConcat(done, [cur]);
  }

  /** Nobody is left to make room for the first row. */
  lemma NoneKept(c: Config, y: Sys, y1: Sys, done: seq<Row>)
    requires c.Valid() && y.running != [] && Common(c, y1, done) && y1.mid.None? && y1.running == []
    requires RoomIs(c, y.(running := y.running[1..]), y.running[0], done + [y.running[0]], Room(y1, false))
    requires Lacks(c, y.running[1..]) >= 0
    ensures KeptMost(c, y, done, Decoded(y1, done), 0)
  {
    hide Common, Blocks, Lack, RowOk, HeadReclaimed;
    var cur := y.running[0];
    if Holds(c, y.waiting + done, y.running) { EnoughFirst(c, y, done); }
    HeldRows(c, y1, done);
    assert y.running[0..] == [cur] + y.running[1..];
    RequeueConcat([cur], y.running[1..]);
    RequeueOne(cur);
    assert y.running[1..][0..] == y.running[1..];
    var base, rest := HeadReclaimed(y.waiting, y.mid), Requeue(y.running[1..]);
    assert base + rest + [Preempted(cur)] == base + (rest + [Preempted(cur)]);
    assert Blocks(y1.running) + Blocks(done) == Blocks(done) by { assert Blocks([]) == {} by { BlocksOfQuiet([]); } }
    assert done + y.running[..0] == done;
    assert y.running[..1] == [cur];
    assert [cur][1..] == [];
  }

  /** The decode phase, exactly: it never fails, schedules the longest prefix of the running
      queue that fits the pool, and gives up the rest in order, the youngest first. */
  lemma {:induction false} DecodeKeepsMost(c: Config, y: Sys, done: seq<Row>) returns (m: nat)
    requires c.Valid() && Common(c, y, done) && NoChunk(y) && AllDecoding(y.running) && AllPlanned(done)
    ensures DecodePhase(c, y, done).Ok? && KeptMost(c, y, done, DecodePhase(c, y, done).value, m)
    decreases |y.running|
  {
    hide Common, Evolves, MakeRoom, MayAppend, CanAppend, Planned, KeptMost, RoomIs, Blocks, Lack, Lacks, Rows, RowOk;
    CommonCount(c, y, done);
    if y.running == [] {
      m := 0;
      NothingToKeep(c, y, done);
    } else {
      var cur := y.running[0];
      var y0 := y.(running := y.running[1..]);
      HeldRows(c, y, done);
      LacksOf(c, y, y.running[1..]);
      TakeFront(c, y, done);
      MakeRoomKeeps(c, y0, cur, done);
      RoomTaken(c, y0, cur, done);
      var r := MakeRoom(c, y0, cur).value;
      var y1 := r.sys;
      if r.found {
        PlanBlocks(c, y1, cur, done);
        PlanDecode(c, y1, cur, done);
        var (p2, cur') := MayAppend(c, y1.pool, cur.(sched := 1, prefill := false));
        var y2 := y1.(pool := p2);
        var rest := DecodeKeepsMost(c, y2, done + [cur']);
        m := rest + 1;
        KeptBehind(c, y, y1, y2, cur', done, DecodePhase(c, y2, done + [cur']).value, rest);
      } else {
        m := 0;
        NoneKept(c, y, y1, done);
      }
    }
  }

  /** What is kept behind the first row is kept altogether. */
  lemma KeptBehind(c: Config, y: Sys, y1: Sys, y2: Sys, cur': Row, done: seq<Row>, d: Decoded, m: nat)
    requires c.Valid() && y.running != [] && Common(c, y, done) && AllDecoding(y.running)
    requires Common(c, y1, done + [y.running[0]]) && y2 == y1.(pool := y2.pool)
    requires RoomIs(c, y.(running := y.running[1..]), y.running[0], done + [y.running[0]], Room(y1, true))
    requires PlannedAs(c, y.running[0], cur')
    requires Gains(c, y.running[0], cur', Blocks(Rows(y1) + (done + [y.running[0]])))
    requires KeptMost(c, y2, done + [cur'], d, m)
    ensures KeptMost(c, y, done, d, m + 1)
  {
    hide Common, Blocks, Lack, Lacks, RowOk, KeptMost, PlannedAs, RoomIs, Rows;
    var cur := y.running[0];
    var b: set<nat> :| |b| == Lack(c, cur) && Blocks([cur']) == Blocks([cur]) + b && b !! Blocks(Rows(y1) + (done + [cur]));
    HeldRows(c, y, done);
    HeldRows(c, y1, done + [cur]);
    BlocksConcat(done, [cur]);
    if c.numBlocks - |Blocks(Rows(y.(running := y.running[1..])) + (done + [cur]))| >= Lack(c, cur) {
      BehindEnough(c, y, y1, y2, cur', done, d, m, b);
    } else {
      BehindShort(c, y, y1, y2, cur', done, d, m, b);
    }
  }

  lemma BehindEnough(c: Config, y: Sys, y1: Sys, y2: Sys, cur': Row, done: seq<Row>, d: Decoded, m: nat, b: set<nat>)
    requires c.Valid() && y.running != [] && y2 == y1.(pool := y2.pool) && PlannedAs(c, y.running[0], cur')
    requires var y0, cur := y.(running := y.running[1..]), y.running[0];
      && RoomIs(c, y0, cur, done + [cur], Room(y1, true))
      && c.numBlocks - |Blocks(Rows(y0) + (done + [cur]))| >= Lack(c, cur)
      && |b| == Lack(c, cur) && Blocks([cur']) == Blocks([cur]) + b
      && b !! Blocks(y1.waiting) + Blocks(y1.running) + (Blocks(done) + Blocks([cur]))
    requires KeptMost(c, y2, done + [cur'], d, m)
    ensures KeptMost(c, y, done, d, m + 1)
  {
    hide Blocks, Lack, KeptMost, PlannedAs, Rows;
    assert y.running == [y.running[0]] + y.running[1..];
    BlocksConcat([y.running[0]], y.running[1..]);
    RestEnough(c, y, y2, cur', done, d, m, b);
  }

  lemma BehindShort(c: Config, y: Sys, y1: Sys, y2: Sys, cur': Row, done: seq<Row>, d: Decoded, m: nat, b: set<nat>)
    requires c.Valid() && y.running != [] && y2 == y1.(pool := y2.pool) && PlannedAs(c, y.running[0], cur')
    requires AllDecoding(y.running) && forall s :: s in y.running ==> RowOk(c, y.pool, s)
    requires var y0, cur := y.(running := y.running[1..]), y.running[0];
      && RoomIs(c, y0, cur, done + [cur], Room(y1, true))
      && c.numBlocks - |Blocks(Rows(y0) + (done + [cur]))| < Lack(c, cur)
      && |b| == Lack(c, cur) && Blocks([cur']) == Blocks([cur]) + b
      && b !! Blocks(y1.waiting) + Blocks(y1.running) + (Blocks(done) + Blocks([cur]))
    requires y1.mid.None? ==> Blocks(y1.waiting) == {}
    requires KeptMost(c, y2, done + [cur'], d, m)
    ensures KeptMost(c, y, done, d, m + 1)
  {
    hide Blocks, Lack, Lacks, KeptMost, PlannedAs, Rows, HeadReclaimed, Requeue, Holds, RowOk, Decoding;
    var n := |y1.running|;
    LacksOf(c, y, y.running[1..]);
    LacksOf(c, y, y.running[1..][..if n < |y.running| - 1 then n + 1 else n]);
    if Holds(c, y.waiting + done, y.running) { EnoughFirst(c, y, done); }
    var w := HeadReclaimed(y.waiting, y.mid) + Requeue(y.running[1..][n..]);
    assert w + [] == w;
    RestShort(c, y, y2, cur', done, d, m, b, n);
  }

  /** From an idle state: when decoding exceeds the pool, the half-prefilled request goes
      first and then the youngest decoders, never more of them than necessary; when it does
      not, nobody loses a block. */
  lemma ScheduleKeepsMost(c: Config, y: Sys) returns (m: nat)
    requires c.Valid() && Idle(c, y)
    ensures DecodePhase(c, y, []).Ok? && KeptMost(c, y, [], DecodePhase(c, y, []).value, m)
  {
    hide Common, KeptMost, DecodePhase;
    m := DecodeKeepsMost(c, y, []);
  }

  // ----- the fill phase -----

  /** A waiting request that joined the running queue with all its remaining work. */
  predicate Joined(s: Row, s': Row) {
    s'.id == s.id && s'.toks == s.toks && s'.status == Running && s'.cached + s'.sched == |s.toks|
  }

  /** Nobody else could be served: no request, slot or token is left, or the next request
      does not fit as a whole. */
  ghost predicate Exhausted(c: Config, y: Sys, f: Filled, n: nat)
    requires c.Valid() && n <= |y.waiting|
  {
    && f.sys.waiting == y.waiting[n..] && f.ids == Ids(f.sys.running)
    && (|| n == |y.waiting| || |f.sys.running| >= c.maxSeqs || SchedTokens(f.sys.running) >= c.budget
        || (y.waiting[n].table == [] && CanAllocate(c, f.sys.pool, y.waiting[n]).None?))
  }

  /** The next request got all that was left of the token budget, which is not all of its
      work; it stays at the head. */
  ghost predicate Chunked(c: Config, y: Sys, f: Filled, n: nat) {
    && n < |y.waiting| && |f.sys.waiting| == |y.waiting| - n && f.sys.waiting[1..] == y.waiting[n + 1..]
    && var s, s' := y.waiting[n], f.sys.waiting[0];
       && s'.id == s.id && s'.toks == s.toks && 1 <= s'.sched && s'.cached + s'.sched < |s.toks|
       && SchedTokens(f.sys.running) + s'.sched == c.budget
       && f.ids == Ids(f.sys.running) + [s.id]
  }

  /** The half-prefilled head could not get the blocks of its next chunk and was given up. */
  ghost predicate HeadGivenUp(c: Config, y: Sys, f: Filled, n: nat)
    requires c.Valid()
  {
    && n == 0 && y.mid.Some? && y.waiting != [] && f.ids == Ids(y.running)
    && f.sys.waiting == HeadReclaimed(y.waiting, y.mid) && f.sys.mid == None
    && var s := y.waiting[0];
       var left := c.budget - SchedTokens(y.running);
       var through := s.cached + Min(|s.toks| - s.cached, left);
       0 <= through && |y.pool.free| < CeilDiv(through, c.blockSize) - |s.table|
  }

  /** The outcome of the fill phase: n waiting requests, first come first served, joined
      with all their work, and then one of three things ended the phase. */
  ghost predicate FilledMost(c: Config, y: Sys, f: Filled, n: nat)
    requires c.Valid()
  {
    && n <= |y.waiting| && |f.sys.running| == |y.running| + n && y.running <= f.sys.running
    && (forall i :: 0 <= i < n ==> Joined(y.waiting[i], f.sys.running[|y.running| + i]))
    && (Exhausted(c, y, f, n) || Chunked(c, y, f, n) || HeadGivenUp(c, y, f, n))
  }

  lemma FillingIs(c: Config, y: Sys, ids: seq<nat>, tokens: nat)
    requires c.Valid() && Filling(c, y, ids, tokens)
    ensures Common(c, y, []) && NoChunk(y) && WaitShape(y) && ids == Ids(y.running) && tokens == SchedTokens(y.running)
    ensures |ids| == |y.running|
    ensures y.waiting != [] ==> y.waiting[0].sched == 0 && (y.mid.None? ==> y.waiting[0].table == [])
    ensures y.waiting != [] && y.mid.Some? ==> y.waiting[0].id == y.mid.value
  {
    hide Held, Complete;
    if y.waiting != [] && y.mid.None? { assert Quiet(y.waiting[0]); }
  }

  /** The first request joined; what the rest of the phase does for the others counts on. */
  lemma JoinFirst(c: Config, y: Sys, y': Sys, f: Filled, n: nat)
    requires c.Valid() && y.waiting != [] && y'.waiting == y.waiting[1..] && y'.mid == None
    requires |y'.running| == |y.running| + 1 && y.running <= y'.running && Joined(y.waiting[0], y'.running[|y.running|])
    requires FilledMost(c, y', f, n)
    ensures FilledMost(c, y, f, n + 1)
  {
    hide Joined, CanAllocate, HeadReclaimed;
    assert forall i :: 0 <= i < |y'.running| ==> f.sys.running[i] == y'.running[i];
    forall i | 0 <= i < n + 1 ensures Joined(y.waiting[i], f.sys.running[|y.running| + i]) {
      if i > 0 { assert Joined(y'.waiting[i - 1], f.sys.running[|y'.running| + (i - 1)]); }
    }
    assert y'.waiting[n..] == y.waiting[n + 1..];
    if n < |y'.waiting| { assert y'.waiting[n] == y.waiting[n + 1] && y'.waiting[n + 1..] == y.waiting[n + 2..]; }
  }

  lemma StopsHere(c: Config, y: Sys, ids: seq<nat>, tokens: nat)
    requires c.Valid() && ids == Ids(y.running) && tokens == SchedTokens(y.running) && |ids| == |y.running|
    requires || y.waiting == [] || |ids| >= c.maxSeqs || tokens >= c.budget
             || (y.waiting[0].table == [] && CanAllocate(c, y.pool, y.waiting[0]).None?)
    ensures FilledMost(c, y, Filled(y, ids), 0)
  {
    hide CanAllocate, Chunked, HeadGivenUp;
    assert y.waiting[0..] == y.waiting;
  }

  /** What placing the head means for its row, whatever happens to the blocks. */
  lemma PlacedRow(c: Config, y: Sys, remaining: nat)
    requires c.Valid() && Common(c, y, []) && NoChunk(y) && y.waiting != [] && remaining >= 1
    ensures var s := y.waiting[0];
      var r := Place(c, y.pool, s, remaining);
      && !r.Broken?
      && (r == NotAdmitted ==> s.table == [] && CanAllocate(c, y.pool, s).None?)
      && (r == NoBlocks ==> (
            && y.mid.Some? && |s.toks| >= s.cached
            && |y.pool.free| < CeilDiv(s.cached + Min(|s.toks| - s.cached, remaining), c.blockSize) - |s.table|))
      && (r.Placed? ==>
            && r.row.id == s.id && r.row.toks == s.toks && 1 <= r.row.sched <= remaining
            && (r.row.sched < r.work ==> r.row.sched == remaining) && r.row.sched <= r.work && r.row.cached + r.work == |s.toks|)
  {
    hide Wf, Owned, Place, Held, RowOk, Owners, Keeps, Shrinks, From, CanAllocate, CeilDiv;
    var s := y.waiting[0];
    PlaceHead(c, y, remaining);
    PlaceRefuses(c, y.pool, s, remaining);
    var r := Place(c, y.pool, s, remaining);
    if r.Placed? { FromCore(c, y.pool, s, r.row); CoreFields(s, r.row); }
    if r == NoBlocks { HeadRest(c, y); CoveredTokens(c, y.pool, s); }
  }

  lemma CoveredTokens(c: Config, p: Pool, s: Row)
    requires c.Valid() && RowOk(c, p, s)
    ensures s.cached <= |s.toks|
  {
  }

  lemma CoreFields(s: Row, s': Row)
    requires Core(s') == Core(s)
    ensures s'.id == s.id && s'.toks == s.toks
  {
    assert Core(s').id == Core(s).id && Core(s').toks == Core(s).toks;
  }

  lemma PlaceRefuses(c: Config, p: Pool, s: Row, remaining: nat)
    requires c.Valid()
    ensures var r := Place(c, p, s, remaining);
      && (r == NotAdmitted ==> s.table == [] && CanAllocate(c, p, s).None?)
      && (r == NoBlocks ==> (
            && |s.toks| >= s.cached
            && |p.free| < CeilDiv(s.cached + Min(|s.toks| - s.cached, remaining), c.blockSize) - |s.table|))
  {
    hide CanAllocate, AllocateIncremental, CeilDiv;
  }

  /** One round of the fill phase with something left to give. */
  lemma FillRound(c: Config, y: Sys, ids: seq<nat>, tokens: nat)
    requires c.Valid() && y.waiting != [] && |ids| < c.maxSeqs && tokens < c.budget && FillPhase(c, y, ids, tokens).Ok?
    ensures var s := y.waiting[0];
      var r := Place(c, y.pool, s, c.budget - tokens);
      var f := FillPhase(c, y, ids, tokens);
      match r
      case Broken(_) => false
      case NotAdmitted => f == Ok(Filled(y, ids))
      case NoBlocks =>
        ids != [] ==> f == Ok(Filled(Preempt(y.(waiting := y.waiting[1..]), s.(sched := 0)).value, ids))
      case Placed(pool, s', work) =>
        if s'.sched < work then f == Ok(Filled(Placing(y, pool, s', work).(mid := Some(s.id)), ids + [s.id]))
        else f == FillPhase(c, Placing(y, pool, s', work), ids + [s.id], tokens + s'.sched)
  {
    hide Place, Preempt, Placing;
  }

  /** The head joins with all its work. */
  lemma JoinsAll(c: Config, y: Sys, ids: seq<nat>, tokens: nat)
    requires c.Valid() && Filling(c, y, ids, tokens) && y.waiting != [] && tokens < c.budget
    requires var r := Place(c, y.pool, y.waiting[0], c.budget - tokens); r.Placed? && r.row.sched >= r.work
    ensures var r := Place(c, y.pool, y.waiting[0], c.budget - tokens);
      var y' := Placing(y, r.pool, r.row, r.work);
      && Filling(c, y', ids + [y.waiting[0].id], tokens + r.row.sched)
      && y'.waiting == y.waiting[1..] && y'.mid == None && |y'.running| == |y.running| + 1 && y.running <= y'.running
      && Joined(y.waiting[0], y'.running[|y.running|])
  {
    hide Common, Evolves, Place, RowOk, From, Wf, Owned, Keeps, Shrinks, Filling, CanAllocate, CeilDiv, Owners;
    FillingIs(c, y, ids, tokens);
    PlacedRow(c, y, c.budget - tokens);
    PlaceHead(c, y, c.budget - tokens);
    var r := Place(c, y.pool, y.waiting[0], c.budget - tokens);
    FillComplete(c, y, ids, tokens, r.pool, r.row);
  }

  /** The fill phase, exactly. */
  lemma {:induction false} FillServesMost(c: Config, y: Sys, ids: seq<nat>, tokens: nat) returns (n: nat)
    requires c.Valid() && Filling(c, y, ids, tokens)
    ensures FillPhase(c, y, ids, tokens).Ok? && FilledMost(c, y, FillPhase(c, y, ids, tokens).value, n)
    decreases |y.waiting|
  {
    hide Common, Place, Filling, FilledMost, CanAllocate, CeilDiv, WaitShape, FilledOk, Joined, Placing, Preempt, NoChunk;
    FillPhaseKeeps(c, y, ids, tokens);
    FillingIs(c, y, ids, tokens);
    n := 0;
    if y.waiting == [] || |ids| >= c.maxSeqs || tokens >= c.budget {
      StopsHere(c, y, ids, tokens);
    } else {
      FillRound(c, y, ids, tokens);
      hide FillPhase;
      PlacedRow(c, y, c.budget - tokens);
      var s := y.waiting[0];
      var r := Place(c, y.pool, s, c.budget - tokens);
      if r == NotAdmitted {
        StopsHere(c, y, ids, tokens);
      } else if r == NoBlocks {
        SomeScheduled(c, y, ids, tokens);
        GivesUp(c, y, ids, tokens);
      } else if r.row.sched < r.work {
        Chunks(c, y, ids, tokens, r.pool, r.row, r.work);
      } else {
        JoinsAll(c, y, ids, tokens);
        var y' := Placing(y, r.pool, r.row, r.work);
        n := FillServesMost(c, y', ids + [s.id], tokens + r.row.sched);
        JoinFirst(c, y, y', FillPhase(c, y', ids + [s.id], tokens + r.row.sched).value, n);
        n := n + 1;
      }
    }
  }

  /** Alone in the pool, the head always gets its blocks. */
  lemma SomeScheduled(c: Config, y: Sys, ids: seq<nat>, tokens: nat)
    requires c.Valid() && Filling(c, y, ids, tokens) && y.waiting != [] && tokens < c.budget
    requires Place(c, y.pool, y.waiting[0], c.budget - tokens) == NoBlocks
    ensures ids != []
  {
    hide Place, Held, PlacedOk, Complete;
    PlaceHead(c, y, c.budget - tokens);
  }

  lemma GivesUp(c: Config, y: Sys, ids: seq<nat>, tokens: nat)
    requires c.Valid() && Common(c, y, []) && NoChunk(y) && y.mid.Some? && y.waiting != [] && |ids| == |y.running|
    requires ids == Ids(y.running) && tokens == SchedTokens(y.running) && y.waiting[0].sched == 0
    requires |y.waiting[0].toks| >= y.waiting[0].cached && tokens <= c.budget
    requires var s := y.waiting[0];
      |y.pool.free| < CeilDiv(s.cached + Min(|s.toks| - s.cached, c.budget - tokens), c.blockSize) - |s.table|
    ensures var p := Preempt(y.(waiting := y.waiting[1..]), y.waiting[0].(sched := 0));
      p.Ok? && FilledMost(c, y, Filled(p.value, ids), 0)
  {
    hide Common, Evolves, CeilDiv, Exhausted, Chunked;
    ReclaimPartial(c, y, []);
    var s := y.waiting[0];
    assert s.(sched := 0) == s;
    hide Preempted;
  }

  lemma Chunks(c: Config, y: Sys, ids: seq<nat>, tokens: nat, pool: Pool, row: Row, work: int)
    requires c.Valid() && y.waiting != [] && ids == Ids(y.running) && tokens == SchedTokens(y.running) && tokens < c.budget
    requires row.id == y.waiting[0].id && row.toks == y.waiting[0].toks && row.sched < work && row.cached + work == |row.toks|
    requires 1 <= row.sched == c.budget - tokens
    ensures FilledMost(c, y, Filled(Placing(y, pool, row, work).(mid := Some(row.id)), ids + [row.id]), 0)
  {
    hide Exhausted, HeadGivenUp;
  }

  /** A scheduling decision as a whole: the longest prefix of the running queue that fits,
      then waiting requests in order until nothing more can be served. */
  lemma ScheduleServesMost(c: Config, y: Sys) returns (m: nat, n: nat)
    requires c.Valid() && Idle(c, y) && (y.waiting != [] || y.running != [])
    ensures Schedule(c, y).Ok? && DecodePhase(c, y, []).Ok?
    ensures var Decoded(y1, done) := DecodePhase(c, y, []).value;
      var r := Schedule(c, y).value;
      && KeptMost(c, y, [], Decoded(y1, done), m)
      && FilledMost(c, y1.(running := done), Filled(r.sys, r.ids), n)
      && (r.prefill <==> |r.ids| > m)
  {
    hide Common, Evolves, DecodePhase, FillPhase, Planned, KeptMost, FilledMost, Ready, Filling, MidConsistent;
    ScheduleProgress(c, y);
    m := ScheduleKeepsMost(c, y);
    DecodePhaseKeeps(c, y, []);
    var Decoded(y1, done) := DecodePhase(c, y, []).value;
    KeptCount(c, y, Decoded(y1, done), m);
    AfterDecode(c, y1, done);
    assert done + y1.running == done;
    n := FillServesMost(c, y1.(running := done), Ids(done), |done|);
  }

  lemma KeptCount(c: Config, y: Sys, d: Decoded, m: nat)
    requires c.Valid() && KeptMost(c, y, [], d, m)
    ensures |d.done| == m
  {
  }
}
