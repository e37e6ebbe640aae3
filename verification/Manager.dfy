/** The block manager as an object whose fields are changed in place. Every method is
    proved against the function that specifies it. */
module Manager {
  import opened Arith
  import opened Types
  import opened Pools
  import opened Allocator
  import opened Queues
  import opened States
  import opened Leases
  import opened Undo

  /** The rows these requests currently are. */
  function Views(q: seq<Sequence>): (r: seq<Row>)
    reads q
    ensures |r| == |q| && forall i :: 0 <= i < |q| ==> r[i] == q[i].View()
  {
    seq(|q|, i requires 0 <= i < |q| reads q => q[i].View())
  }

  /** No object occurs twice. */
  ghost predicate Separate(q: seq<Sequence>) {
    forall i, j :: 0 <= i < j < |q| ==> q[i] != q[j]
  }

  /** A request while the engine works on it. */
  class Sequence {
    const id: nat
    const prompt: nat
    const maxTokens: nat
    const ignoreEos: bool
    var status: Status
    var toks: seq<Token>
    var cached: nat
    var draft: nat
    var sched: nat
    var prefill: bool
    var table: seq<nat>

    function View(): Row
      reads this
    {
      Row(id, status, toks, prompt, cached, draft, sched, prefill, table, maxTokens, ignoreEos)
    }

    constructor (id: nat, promptTokens: seq<Token>, maxTokens: nat, ignoreEos: bool)
      requires promptTokens != []
      ensures View() == Row(id, Waiting, promptTokens, |promptTokens|, 0, 0, 0, true, [], maxTokens, ignoreEos)
    {
      this.id, prompt, this.maxTokens, this.ignoreEos := id, |promptTokens|, maxTokens, ignoreEos;
      status, toks, cached, draft, sched, prefill, table := Waiting, promptTokens, 0, 0, 0, true, [];
    }

    /** Tokens of block i. */
    method Block(i: nat, bs: nat) returns (blk: seq<Token>)
      requires bs >= 1 && i < CeilDiv(|toks|, bs)
      ensures blk == BlockTokens(toks, i, bs)
    {
      CeilBounds(|toks|, bs);
      MulMono(i + 1, CeilDiv(|toks|, bs), bs);
      blk := toks[i * bs..if (i + 1) * bs <= |toks| then (i + 1) * bs else |toks|];
    }

    method AppendToken(t: Token)
      modifies this`toks
      ensures View() == old(View()).(toks := old(toks) + [t])
    {
      toks := toks + [t];
    }
  }

  datatype Granting = Granted | Denied | Invalid | Busy

  datatype Attached = Ready | Short | Rejected(error: AllocError)

  class BlockManager {
    const c: Config
    var blocks: seq<Block>
    var free: seq<nat>
    var used: set<nat>
    var index: map<int, nat>
    var lease: Option<Lease>          // the one temporary reservation, if any

    function View(): Pool
      reads this
    {
      Pool(blocks, free, used, index)
    }

    constructor (c: Config)
      ensures this.c == c && lease == None
      ensures View() == Pool(seq(c.numBlocks, i => Block.Block(0, NO_HASH, [])), seq(c.numBlocks, i requires i >= 0 => i), {}, map[])
    {
      this.c := c;
      blocks := seq(c.numBlocks, i => Block.Block(0, NO_HASH, []));
      free := seq(c.numBlocks, i requires i >= 0 => i);
      used, index, lease := {}, map[], None;
    }

    method AllocateBlock() returns (b: nat)
      requires free != [] && free[0] < |blocks|
      modifies this`blocks, this`free, this`used, this`index
      ensures b == old(free[0]) && View() == Take(old(View()))
    {
      b := free[0];
      free := free[1..];
      var h := blocks[b].hash;
      if h != NO_HASH && h in index && index[h] == b {
        index := index - {h};
      }
      blocks := blocks[b := FRESH];
      used := used + {b};
    }

    /** Whole-request admission, block by block until the first miss. */
    method CanAllocate(s: Sequence) returns (hits: Option<nat>)
      requires c.Valid() && IndexAgrees(View())
      ensures hits == Allocator.CanAllocate(c, View(), s.View())
    {
      hide Hits, BlockTokens, CountOut, IndexAgrees, CeilDiv;
      var n := CeilDiv(|s.toks|, c.blockSize);
      var h, count, needed, i := NO_HASH, 0, n as int, 0;
      ghost var found: seq<nat> := [];
      ghost var limit := if n == 0 then 0 else n - 1;
      var missed := false;
      assert CountOut([], used) == 0 by { CountOutNone(used); }
      assert [] + Hits(c, View(), s.toks, 0, limit, NO_HASH) == Hits(c, View(), s.toks, 0, limit, NO_HASH);
      while i + 1 < n && !missed
        invariant i <= limit && count == |found| && needed == n - (|found| - CountOut(found, used))
        invariant Hits(c, View(), s.toks, 0, limit, NO_HASH) == found + (if missed then [] else Hits(c, View(), s.toks, i, limit, h))
        decreases n - i, !missed
      {
        var blk := s.Block(i, c.blockSize);
        var d := c.hash(h, blk);
        HitsStep(c, View(), s.toks, i, limit, h, found);
        if d in index { IndexEntry(View(), d); }
        if d !in index || blocks[index[d]].toks != blk {
          missed := true;
        } else {
          CountOutAppend(found, index[d], used);
          if index[d] in used { needed := needed - 1; }
          found := found + [index[d]];
          count := count + 1;
          h := d;
          i := i + 1;
        }
      }
      HitsEnd(c, View(), s.toks, i, limit, h);
      assert found + [] == found;
      hits := if |free| < needed then None else Some(count);
    }

    /** Pin the cached prefix, then take the blocks of the scheduled part. */
    method AllocateIncremental(s: Sequence, nc: nat, through: nat) returns (r: Attached)
      requires c.Valid() && Wf(View())
      modifies this`blocks, this`free, this`used, this`index, s
      ensures match Allocator.AllocateIncremental(c, old(View()), old(s.View()), nc, through)
        case Done(p, row) => r == Ready && View() == p && s.View() == row
        case NoRoom => r == Short && View() == old(View()) && s.View() == old(s.View())
        case Fail(e) => r == Rejected(e) && View() == old(View()) && s.View() == old(s.View())
    {
      hide Hits, BlockTokens, CountOut, Wf, CeilDiv, Grow, AttachAll;
      var bs := c.blockSize;
      if s.table != [] { return Rejected(TableNotEmpty); }
      if nc >= CeilDiv(|s.toks|, bs) { return Rejected(PrefixOutOfRange); }
      if !(1 <= through <= |s.toks|) { return Rejected(CoverageOutOfRange); }
      var required := CeilDiv(through, bs);
      if required <= nc { return Rejected(NothingBeyondPrefix); }
      HitsInRange(c, View(), s.toks, 0, nc, NO_HASH);
      var found, ids := CachedPrefix(s, nc);
      if !found { return Rejected(PrefixChanged); }
      var extra := CountOut(ids, used);
      if |free| < required - nc + extra { return Short; }
      assert FreeList(View()) by { WfParts(View()); }
      PinLeaves(View(), ids);
      Pin(s, ids);
      FreeInRange(View());
      Append(s, required - nc);
      s.cached, s.draft := nc * bs, 0;
      r := Ready;
    }

    /** The cached blocks of the first nc blocks, unless one has changed. */
    method CachedPrefix(s: Sequence, nc: nat) returns (found: bool, ids: seq<nat>)
      requires c.Valid() && Wf(View()) && nc < CeilDiv(|s.toks|, c.blockSize)
      ensures found <==> |Hits(c, View(), s.toks, 0, nc, NO_HASH)| == nc
      ensures found ==> ids == Hits(c, View(), s.toks, 0, nc, NO_HASH)
    {
      hide Hits, BlockTokens, IndexAgrees, FreeList, CeilDiv;
      var h, i := NO_HASH, 0;
      ids := [];
      assert [] + Hits(c, View(), s.toks, 0, nc, NO_HASH) == Hits(c, View(), s.toks, 0, nc, NO_HASH);
      while i < nc
        invariant i <= nc && |ids| == i
        invariant Hits(c, View(), s.toks, 0, nc, NO_HASH) == ids + Hits(c, View(), s.toks, i, nc, h)
      {
        var blk := s.Block(i, c.blockSize);
        var d := c.hash(h, blk);
        HitsStep(c, View(), s.toks, i, nc, h, ids);
        if d in index { IndexEntry(View(), d); }
        if d !in index || blocks[index[d]].toks != blk { return false, ids; }
        h := d;
        ids := ids + [index[d]];
        i := i + 1;
      }
      HitsEnd(c, View(), s.toks, i, nc, h);
      assert ids + [] == ids;
      found := true;
    }

    /** Share the blocks in use, revive the free ones. */
    method Pin(s: Sequence, ids: seq<nat>)
      requires forall k :: 0 <= k < |ids| ==> ids[k] < |blocks|
      requires s.table == []
      modifies this`blocks, this`free, this`used, this`index, s`table
      ensures View() == AttachAll(old(View()), ids) && s.table == ids && |blocks| == old(|blocks|)
    {
      ghost var p0 := View();
      var i := 0;
      while i < |ids|
        invariant i <= |ids| && s.table == ids[..i] && |blocks| == |p0.blocks|
        invariant AttachAll(View(), ids[i..]) == AttachAll(p0, ids)
      {
        var b := ids[i];
        assert ids[i..][0] == b && ids[i..][1..] == ids[i + 1..];
        if b in used {
          blocks := blocks[b := blocks[b].(refs := blocks[b].refs + 1)];
        } else {
          blocks := blocks[b := blocks[b].(refs := 1)];
          free := RemoveFirst(free, b);
          used := used + {b};
        }
        s.table := s.table + [b];
        i := i + 1;
      }
      assert ids[|ids|..] == [];
    }

    /** Grow the table through one scheduled chunk. */
    method Extend(s: Sequence, through: nat) returns (r: Attached)
      requires c.Valid() && Wf(View())
      modifies this`blocks, this`free, this`used, this`index, s`table
      ensures match Allocator.Extend(c, old(View()), old(s.View()), through)
        case Done(p, row) => r == Ready && View() == p && s.View() == row
        case NoRoom => r == Short && View() == old(View()) && s.View() == old(s.View())
        case Fail(e) => r == Rejected(e) && View() == old(View()) && s.View() == old(s.View())
    {
      if s.table == [] { return Rejected(NotAllocated); }
      if !(1 <= through <= |s.toks|) { return Rejected(CoverageOutOfRange); }
      var required := CeilDiv(through, c.blockSize);
      if required <= |s.table| { return Ready; }
      var more := required - |s.table|;
      if |free| < more { return Short; }
      FreeInRange(View());
      Append(s, more);
      r := Ready;
    }

    predicate CanAppend(s: Sequence)
      requires c.Valid()
      reads this, s
      ensures CanAppend(s) <==> Allocator.CanAppend(c, View(), s.View())
    {
      |free| >= if |s.toks| % c.blockSize == 1 then 1 else 0
    }

    /** Append the block of the next position when the table ends before it. */
    method MayAppend(s: Sequence)
      requires c.Valid() && Wf(View()) && CanAppend(s)
      modifies this`blocks, this`free, this`used, this`index, s`table
      ensures (View(), s.View()) == Allocator.MayAppend(c, old(View()), old(s.View()))
    {
      if |s.toks| % c.blockSize == 1 {
        FreeInRange(View());
        Append(s, 1);
      }
    }

    method DeallocateBlock(b: nat)
      modifies this`used, this`free
      ensures used == old(used) - {b} && free == old(free) + [b]
    {
      used := used - {b};
      free := free + [b];
    }

    /** Drop every reference of the table, last block first, and forget its coverage. */
    method Deallocate(s: Sequence)
      requires forall k :: 0 <= k < |s.table| ==> s.table[k] < |blocks|
      modifies this`blocks, this`free, this`used, this`index, s
      ensures View() == Release(old(View()), old(s.table)) && s.View() == Cleared(old(s.View()))
    {
      ghost var p0 := View();
      var i: nat := |s.table|;
      assert s.table[..i] == s.table;
      while i > 0
        invariant i <= |s.table| && |blocks| == |p0.blocks| && s.View() == old(s.View())
        invariant Release(View(), s.table[..i]) == Release(p0, s.table)
      {
        i := i - 1;
        var b := s.table[i];
        assert s.table[..i + 1][..i] == s.table[..i];
        blocks := blocks[b := blocks[b].(refs := blocks[b].refs - 1)];
        if blocks[b].refs == 0 { DeallocateBlock(b); }
      }
      s.cached, s.draft, s.table := 0, 0, [];
    }

    /** Publish the full blocks covered by the processed tokens. */
    method HashBlocks(s: Sequence)
      requires c.Valid() && Full(c, s.cached + s.sched) <= |s.table|
      requires s.cached + s.sched <= |s.toks| && forall k :: 0 <= k < |s.table| ==> s.table[k] < |blocks|
      modifies this`blocks, this`index
      ensures View() == Allocator.HashBlocks(c, old(View()), s.View())
    {
      hide HashFrom, BlockTokens, CeilDiv, Allocator.HashBlocks, Full, SeedHash;
      FullInTokens(c, s.View());
      var start := Full(c, s.cached);
      var end := Full(c, s.cached + s.sched);
      HashBlocksUnfolds(c, View(), s.View());
      SeedIsLast(View(), s.View(), start);
      if start == end {
        HashFromNone(c, View(), s.View(), start, SeedHash(View(), s.View(), start));
        return;
      }
      var h := if start > 0 then blocks[s.table[start - 1]].hash else NO_HASH;
      ghost var p0, h0 := View(), h;
      var i := start;
      while i < end
        invariant start <= i <= end && |blocks| == |p0.blocks| && free == p0.free && used == p0.used
        invariant HashFrom(c, View(), s.View(), i, end, h) == HashFrom(c, p0, s.View(), start, end, h0)
      {
        var blk := s.Block(i, c.blockSize);
        HashFromStep(c, View(), s.View(), i, end, h);
        h := c.hash(h, blk);
        var b := s.table[i];
        blocks := blocks[b := blocks[b].(hash := h, toks := blk)];
        index := index[h := b];
        i := i + 1;
      }
      HashFromNone(c, View(), s.View(), end, h);
    }

    // ----- failed decode schedules -----

    /** One row of the group check: unchanged, or ending in one fresh block. */
    method CheckRow(s: Sequence) returns (ok: bool, last: Option<nat>)
      requires c.Valid()
      ensures ok <==> RowUndoable(c, View(), s.View())
      ensures ok ==> last == if Appended(c, s.View()) then Some(LastOf(s.View())) else None
    {
      hide CeilDiv, FreshSuffix;
      last := None;
      if s.status != Running || s.prefill || s.sched != 1 || s.cached + 1 != |s.toks| { return false, None; }
      var n := CeilDiv(s.cached, c.blockSize);
      if |s.table| == n { return true, None; }
      if |s.table| != n + 1 { return false, None; }
      var b := s.table[n];
      FreshIs(View(), s.View());
      if b in s.table[..n] || b >= |blocks| || b !in used || b in free || blocks[b] != FRESH { return false, None; }
      return true, Some(b);
    }

    /** The appended blocks of all rows, each once. */
    method CheckSuffixes(rows: seq<Sequence>) returns (ok: bool, seen: set<nat>)
      requires c.Valid()
      ensures ok ==> SuffixesTo(c, View(), Views(rows), |rows|, seen)
      ensures !ok ==> !UndoAllowed(c, View(), Views(rows))
    {
      hide CeilDiv, UndoAllowed, FreshSuffix, RowUndoable, SuffixesTo, Appended;
      ghost var v := Views(rows);
      seen := {};
      NoSuffixes(c, View(), v);
      var i := 0;
      while i < |rows|
        invariant i <= |rows| && SuffixesTo(c, View(), v, i, seen)
      {
        var good, last := CheckRow(rows[i]);
        RowRefused(c, View(), v, i);
        if !good { return false, seen; }
        SuffixNext(c, View(), v, i, seen);
        if last.Some? {
          if last.value in seen {
            SuffixShared(c, View(), v, i, seen);
            return false, seen;
          }
          seen := seen + {last.value};
        }
        i := i + 1;
      }
      ok := true;
    }

    /** The group check: every changed row ends in one fresh block nobody else names. */
    method CheckAppends(rows: seq<Sequence>) returns (ok: bool)
      requires c.Valid()
      ensures ok <==> UndoAllowed(c, View(), Views(rows))
    {
      hide CeilDiv, UndoAllowed, SuffixesTo, PrefixesApart, PrefixOf;
      ghost var v := Views(rows);
      var good, seen := CheckSuffixes(rows);
      if !good { return false; }
      NoPrefixes(c, v, seen);
      var i := 0;
      while i < |rows|
        invariant i <= |rows| && PrefixesApart(c, v, i, seen)
      {
        var s := rows[i];
        var n := CeilDiv(s.cached, c.blockSize);
        var prefix := if n <= |s.table| then ToSet(s.table[..n]) else {};
        PrefixIs(c, v, i, seen, prefix);
        if prefix * seen != {} {
          PrefixShared(c, View(), v, i, seen);
          return false;
        }
        i := i + 1;
      }
      AllUndoable(c, View(), v, seen);
      ok := true;
    }

    /** Take the appended blocks back, last row first. */
    method RollbackAppends(rows: seq<Sequence>) returns (ok: bool)
      requires c.Valid() && Separate(rows)
      modifies this`blocks, this`free, this`used, rows
      ensures ok <==> old(UndoAllowed(c, View(), Views(rows)))
      ensures ok ==> (View(), Views(rows)) == UndoAll(c, old(View()), old(Views(rows)))
      ensures !ok ==> View() == old(View()) && Views(rows) == old(Views(rows))
    {
      ok := CheckAppends(rows);
      if ok {
        UndoneInRange(c, View(), Views(rows));
        UndoRows(rows);
      }
    }

    method UndoRows(rows: seq<Sequence>)
      requires c.Valid() && Separate(rows)
      requires forall i :: 0 <= i < |rows| && Appended(c, rows[i].View()) ==> rows[i].table[|rows[i].table| - 1] < |blocks|
      modifies this`blocks, this`free, this`used, rows
      ensures (View(), Views(rows)) == UndoAll(c, old(View()), old(Views(rows)))
    {
      hide CeilDiv, UndoRow, UndoAll, Undoing, Appended;
      ghost var p0, v0 := View(), Views(rows);
      var i: nat := |rows|;
      assert rows[i..] == [];
      UndoStart(c, p0, v0);
      while i > 0
        invariant i <= |rows| && |blocks| == |p0.blocks|
        invariant forall k :: 0 <= k < i ==> rows[k].View() == v0[k]
        invariant Undoing(c, p0, v0, View(), i, Views(rows[i..]))
      {
        i := i - 1;
        var s := rows[i];
        ghost var after := Views(rows[i + 1..]);
        UndoStep(c, p0, v0, View(), i, after);
        assert s !in rows[i + 1..];
        UndoOne(s);
        assert Views(rows[i + 1..]) == after;
        ViewsCons(rows, i);
      }
      UndoEnd(c, p0, v0, View(), Views(rows));
      assert rows[0..] == rows;
    }

    /** One row of the rollback. */
    method UndoOne(s: Sequence)
      requires c.Valid() && (Appended(c, s.View()) ==> s.table[|s.table| - 1] < |blocks|)
      modifies this`blocks, this`free, this`used, s
      ensures (View(), s.View()) == UndoRow(c, old(View()), old(s.View()))
      ensures |blocks| == old(|blocks|)
    {
      var n := CeilDiv(s.cached, c.blockSize);
      if |s.table| == n + 1 {
        var b := s.table[n];
        s.table := s.table[..n];
        blocks := blocks[b := blocks[b].(refs := 0)];
        used := used - {b};
        free := [b] + free;
      }
      s.sched := 0;
    }

    // ----- the temporary lease -----

    /** Whether a row may take part in a lease: it owns every block it names. */
    method OwnsTable(s: Sequence) returns (ok: bool)
      ensures ok <==> OwnsItsBlocks(View(), s.View())
    {
      var i := 0;
      while i < |s.table|
        invariant i <= |s.table|
        invariant forall k :: 0 <= k < i ==> s.table[k] < |blocks| && s.table[k] in used && blocks[s.table[k]].refs > 0
      {
        var b := s.table[i];
        if b >= |blocks| || b !in used || blocks[b].refs <= 0 { return false; }
        i := i + 1;
      }
      ok := true;
    }

    /** The request checks of a reservation, and the blocks it asks for in all. */
    method CheckRequest(rows: seq<Sequence>, highs: seq<nat>) returns (ok: bool, total: nat)
      requires c.Valid() && |rows| == |highs|
      ensures ok <==> Distinct(Views(rows)) && AllOwn(View(), Views(rows))
      ensures ok ==> total == TotalNeeded(c, Views(rows), highs)
    {
      hide OwnsItsBlocks, TotalNeeded, Needed, RequestTo, Distinct, AllOwn;
      ghost var v := Views(rows);
      var seen: set<nat> := {};
      total := 0;
      var i := 0;
      RequestStart(c, View(), v, highs);
      while i < |rows|
        invariant i <= |rows| && RequestTo(c, View(), v, highs, i, seen, total)
      {
        var s := rows[i];
        CheckedStep(c, View(), v, highs, i, seen, total);
        if s.id in seen { return false, 0; }
        seen := seen + {s.id};
        var owns := OwnsTable(s);
        if !owns { return false, 0; }
        total := total + Needed(c, s.View(), highs[i]);
        i := i + 1;
      }
      RequestEnd(c, View(), v, highs, seen, total);
      ok := true;
    }

    /** Allocator membership: the free list and the used set partition the pool. */
    method CheckMembership() returns (ok: bool)
      ensures ok <==> FreeList(View())
    {
      var f := ToSet(free);
      PartitionIs(View());
      ok := |f| == |free| && f * used == {} && f + used == Range(|blocks|);
    }

    /** Append to each row, in order, the next blocks of the free list. */
    method GrowRows(rows: seq<Sequence>, highs: seq<nat>) returns (leased: seq<LeaseRow>)
      requires c.Valid() && |rows| == |highs| && Separate(rows) && FreeList(View())
      requires TotalNeeded(c, Views(rows), highs) <= |free|
      modifies this`blocks, this`free, this`used, this`index, rows
      ensures GrowAll(c, old(View()), old(Views(rows)), highs) == Growth(View(), Views(rows), leased)
    {
      hide GrowAll, Grow, TotalNeeded, Needed, Growing, FreeList;
      ghost var p0, v0 := View(), Views(rows);
      ghost var done: seq<Row> := [];
      leased := [];
      var i := 0;
      GrowingStart(c, p0, v0, highs);
      while i < |rows|
        invariant i <= |rows| && |done| == i
        invariant forall k :: 0 <= k < i ==> rows[k].View() == done[k]
        invariant forall k :: i <= k < |rows| ==> rows[k].View() == v0[k]
        invariant Growing(c, p0, v0, highs, View(), i, done, leased)
      {
        var s := rows[i];
        var n := Needed(c, s.View(), highs[i]);
        GrowingStep(c, p0, v0, highs, View(), i, done, leased);
        leased := leased + [LeaseRow(s.id, s.table, free[..n], s.cached, s.draft)];
        Append(s, n);
        done := done + [s.View()];
        i := i + 1;
      }
      assert Views(rows) == done;
      GrowingEnd(c, p0, v0, highs, View(), done, leased);
    }

    /** Reserve, for the whole group or not at all, the blocks through each row's
        highest written position. */
    method Reserve(rows: seq<Sequence>, highs: seq<nat>) returns (r: Granting)
      requires c.Valid() && |rows| == |highs|
      modifies this, rows
      ensures r != Granted ==> View() == old(View()) && Views(rows) == old(Views(rows)) && lease == old(lease)
      ensures r == Busy <==> old(lease).Some?
      ensures r != Busy ==> match Leases.Reserve(c, old(View()), old(Views(rows)), highs)
        case Reserved(p, v, l) => r == Granted && View() == p && Views(rows) == v && lease == Some(l)
        case NoCapacity => r == Denied
        case ReserveFailed(_) => r == Invalid
    {
      hide GrowAll, TotalNeeded, FreeList, Distinct, OwnsItsBlocks, AllOwn, Separate, Snapshot, Tables, Leases.Reserve;
      if lease.Some? { return Busy; }
      var ok, total := CheckRequest(rows, highs);
      ReserveFails(c, View(), Views(rows), highs);
      if !ok { return Invalid; }
      if total > |free| { return Denied; }
      var members := CheckMembership();
      if !members { return Invalid; }
      var order := free[..total];
      CandidatesInRange(View(), total);
      if exists b :: b in order && blocks[b].refs != 0 { return Invalid; }
      var states := Snapshot(View(), ToSet(order) + Tables(Views(rows)));
      var freeBefore, usedBefore, indexBefore := free, used, index;
      DistinctSeparate(rows);
      ReserveIs(c, View(), Views(rows), highs);
      var leased := GrowRows(rows, highs);
      lease := Some(Lease(leased, order, freeBefore, usedBefore, indexBefore, states));
      r := Granted;
    }

    /** The check repeated before every use of a live lease. */
    method ValidateLive(rows: seq<Sequence>) returns (ok: bool)
      ensures ok <==> lease.Some? && Live(View(), Views(rows), lease.value)
    {
      if lease.None? { return false; }
      var l := lease.value;
      hide Flatten, BeforeTables, ExpectedIndex, NoDup;
      DupFree(l.order);
      if |ToSet(l.order)| != |l.order| || l.states.Keys != ToSet(l.order) + BeforeTables(l.rows) { return false; }
      if |l.order| > |l.freeBefore| || free != l.freeBefore[|l.order|..] { return false; }
      if used != l.usedBefore + ToSet(l.order) || index != ExpectedIndex(l) { return false; }
      if exists b :: b in l.states && !(b < |blocks| && blocks[b] == if b in l.order then FRESH else l.states[b]) { return false; }
      if Flatten(l.rows) != l.order || |rows| != |l.rows| { return false; }
      ok := RowsMatch(rows, l.rows);
    }

    method RowsMatch(rows: seq<Sequence>, leased: seq<LeaseRow>) returns (ok: bool)
      requires |rows| == |leased|
      ensures ok <==> forall i :: 0 <= i < |rows| ==> RowMatches(Views(rows)[i], leased[i])
    {
      ghost var v := Views(rows);
      var i := 0;
      while i < |rows|
        invariant i <= |rows| && forall k :: 0 <= k < i ==> RowMatches(v[k], leased[k])
      {
        var s, r := rows[i], leased[i];
        if s.id != r.id || s.table != r.before + r.appended || s.cached != r.cached || s.draft != r.draft {
          assert !RowMatches(v[i], leased[i]);
          return false;
        }
        i := i + 1;
      }
      ok := true;
    }

    /** Put recorded block states back. */
    method RestoreStates(states: map<nat, Block>)
      requires forall b :: b in states ==> b < |blocks|
      modifies this`blocks
      ensures blocks == RestoreBlocks(old(blocks), states)
    {
      ghost var was := blocks;
      var todo := states.Keys;
      while todo != {}
        invariant todo <= states.Keys && |blocks| == |was|
        invariant forall b: nat :: b < |was| ==> blocks[b] == if b in states && b !in todo then states[b] else was[b]
        decreases |todo|
      {
        var b :| b in todo;
        blocks := blocks[b := states[b]];
        todo := todo - {b};
      }
    }

    /** Give the whole lease back. */
    method Rollback(rows: seq<Sequence>) returns (ok: bool)
      requires Separate(rows)
      modifies this, rows
      ensures old(lease).None? ==> !ok
      ensures !ok ==> View() == old(View()) && Views(rows) == old(Views(rows)) && lease == old(lease)
      ensures old(lease).Some? ==> match Leases.Rollback(old(View()), old(Views(rows)), old(lease).value)
        case Settled(p, v) => ok && View() == p && Views(rows) == v && lease == None
        case Refused(_) => !ok
    {
      hide Live, RestoreBlocks, RestoreRows;
      ok := ValidateLive(rows);
      if ok {
        LiveParts(View(), Views(rows), lease.value);
        RestoreSnapshot(rows, lease.value);
      }
    }

    /** Put everything the lease recorded back. */
    method RestoreSnapshot(rows: seq<Sequence>, l: Lease)
      requires |rows| == |l.rows| && Separate(rows) && forall b :: b in l.states ==> b < |blocks|
      modifies this, rows
      ensures View() == Pool(RestoreBlocks(old(blocks), l.states), l.freeBefore, l.usedBefore, l.indexBefore)
      ensures Views(rows) == RestoreRows(old(Views(rows)), l.rows) && lease == None
    {
      hide RestoreBlocks, RestoreRows, Separate;
      RestoreStates(l.states);
      free, used, index, lease := l.freeBefore, l.usedBefore, l.indexBefore, None;
      ghost var p := View();
      RestoreRowsInPlace(rows, l.rows);
      assert View() == p;
    }

    method RestoreRowsInPlace(rows: seq<Sequence>, leased: seq<LeaseRow>)
      requires |rows| == |leased| && Separate(rows)
      modifies rows
      ensures Views(rows) == RestoreRows(old(Views(rows)), leased)
    {
      hide RestoreRow;
      ghost var v0 := Views(rows);
      var i := 0;
      while i < |rows|
        invariant i <= |rows|
        invariant forall k :: 0 <= k < i ==> rows[k].View() == RestoreRow(v0[k], leased[k])
        invariant forall k :: i <= k < |rows| ==> rows[k].View() == v0[k]
      {
        RestoreOne(rows[i], leased[i]);
        i := i + 1;
      }
      assert Views(rows) == RestoreRows(v0, leased);
    }

    method RestoreOne(s: Sequence, r: LeaseRow)
      modifies s
      ensures s.View() == RestoreRow(old(s.View()), r)
    {
      s.table, s.cached, s.draft := r.before, r.cached, r.draft;
    }

    /** Consume the lease, keeping the first keep[i] appended blocks of row i. */
    method Finalize(rows: seq<Sequence>, keep: seq<int>) returns (ok: bool)
      requires Separate(rows)
      modifies this, rows
      ensures old(lease).None? ==> !ok
      ensures !ok ==> View() == old(View()) && Views(rows) == old(Views(rows)) && lease == old(lease)
      ensures old(lease).Some? ==> match Leases.Finalize(old(View()), old(Views(rows)), old(lease).value, keep)
        case Settled(p, v) => ok && View() == p && Views(rows) == v && lease == None
        case Refused(_) => !ok
    {
      hide Live, KeepFits, Kept, Minus, Without, RestoreBlocks, KeepRows;
      ok := ValidateLive(rows);
      if !ok { return; }
      if !KeepFits(lease.value.rows, keep) { return false; }
      LiveParts(View(), Views(rows), lease.value);
      Settle(rows, lease.value, keep);
    }

    /** Restore the released blocks at their old places; the kept ones stay. */
    method Settle(rows: seq<Sequence>, l: Lease, keep: seq<int>)
      requires |rows| == |l.rows| && KeepFits(l.rows, keep) && Separate(rows) && forall b :: b in l.states ==> b < |blocks|
      modifies this, rows
      ensures var kept := ToSet(Kept(l.rows, keep));
        View() == Pool(RestoreBlocks(old(blocks), map b | b in l.states && b in l.order && b !in kept :: l.states[b]),
                       Minus(l.freeBefore, kept), l.usedBefore + kept, Without(l.indexBefore, kept))
      ensures Views(rows) == KeepRows(old(Views(rows)), l.rows, keep) && lease == None
    {
      hide KeepFits, Kept, Minus, Without, RestoreBlocks, KeepRows, Separate;
      var kept := ToSet(Kept(l.rows, keep));
      var released := map b | b in l.states && b in l.order && b !in kept :: l.states[b];
      RestoreStates(released);
      free, used, index, lease := Minus(l.freeBefore, kept), l.usedBefore + kept, Without(l.indexBefore, kept), None;
      ghost var p := View();
      KeepRowsInPlace(rows, l.rows, keep);
      assert View() == p;
    }

    method KeepOne(s: Sequence, r: LeaseRow, n: int)
      requires 0 <= n <= |r.appended|
      modifies s
      ensures s.View() == KeepRow(old(s.View()), r, n)
    {
      s.table := r.before + r.appended[..n];
    }

    method KeepRowsInPlace(rows: seq<Sequence>, leased: seq<LeaseRow>, keep: seq<int>)
      requires |rows| == |leased| && KeepFits(leased, keep) && Separate(rows)
      modifies rows
      ensures Views(rows) == KeepRows(old(Views(rows)), leased, keep)
    {
      hide KeepRow;
      ghost var v0 := Views(rows);
      var i := 0;
      while i < |rows|
        invariant i <= |rows|
        invariant forall k :: 0 <= k < i ==> rows[k].View() == KeepRow(v0[k], leased[k], keep[k])
        invariant forall k :: i <= k < |rows| ==> rows[k].View() == v0[k]
      {
        KeepOne(rows[i], leased[i], keep[i]);
        i := i + 1;
      }
      KeptIs(v0, leased, keep);
      assert Views(rows) == KeepRows(v0, leased, keep);
    }

    /** From here on the leased blocks may be overwritten: what they cached is gone. */
    method PrepareTargetWrites(rows: seq<Sequence>) returns (ok: bool)
      modifies this`lease
      ensures ok <==> old(lease.Some? && Live(View(), Views(rows), lease.value))
      ensures lease == if ok then Some(Prepare(old(lease).value)) else old(lease)
    {
      ok := ValidateLive(rows);
      if ok {
        var l := lease.value;
        lease := Some(l.(
          indexBefore := Without(l.indexBefore, ToSet(l.order)),
          states := map b | b in l.states :: if b in l.order then Forgotten(l.states[b]) else l.states[b]));
      }
    }

    /** Take n blocks for the end of the table. */
    method Append(s: Sequence, n: nat)
      requires n <= |free| && forall k :: 0 <= k < n ==> free[k] < |blocks|
      modifies this`blocks, this`free, this`used, this`index, s`table
      ensures (View(), s.table) == Grow(old(View()), old(s.table), n)
    {
      ghost var p0, t0 := View(), s.table;
      var i := 0;
      while i < n
        invariant i <= n && n - i <= |free| && (forall k :: 0 <= k < n - i ==> free[k] < |blocks|)
        invariant Grow(View(), s.table, n - i) == Grow(p0, t0, n)
      {
        var b := AllocateBlock();
        s.table := s.table + [b];
        i := i + 1;
      }
    }
  }

  lemma SeedIsLast(p: Pool, s: Row, start: nat)
    requires start <= |s.table| && forall k :: 0 <= k < |s.table| ==> s.table[k] < |p.blocks|
    ensures SeedHash(p, s, start) == if start > 0 then p.blocks[s.table[start - 1]].hash else NO_HASH
  {
  }

  lemma HashFromStep(c: Config, p: Pool, s: Row, i: nat, end: nat, h: int)
    requires c.Valid() && i < end && i < |s.table| && s.table[i] < |p.blocks|
    ensures var blk := BlockTokens(s.toks, i, c.blockSize);
      var d := c.hash(h, blk);
      var b := s.table[i];
      HashFrom(c, p, s, i, end, h) ==
        HashFrom(c, p.(blocks := p.blocks[b := p.blocks[b].(hash := d, toks := blk)], index := p.index[d := b]), s, i + 1, end, d)
  {
    hide BlockTokens;
  }

  lemma FullInTokens(c: Config, s: Row)
    requires c.Valid() && s.cached + s.sched <= |s.toks|
    ensures Full(c, s.cached) <= Full(c, s.cached + s.sched) <= CeilDiv(|s.toks|, c.blockSize)
  {
    DivMono(s.cached, s.cached + s.sched, c.blockSize);
    FloorCeil(s.cached + s.sched, c.blockSize);
    CeilMono(s.cached + s.sched, |s.toks|, c.blockSize);
  }

  lemma WfParts(p: Pool)
    requires Wf(p)
    ensures FreeList(p) && IndexAgrees(p)
  {
  }

  lemma {:induction false} HitsInRange(c: Config, p: Pool, toks: seq<Token>, i: nat, limit: nat, h: int)
    requires c.Valid()
    ensures forall k :: 0 <= k < |Hits(c, p, toks, i, limit, h)| ==> Hits(c, p, toks, i, limit, h)[k] < |p.blocks|
    ensures |Hits(c, p, toks, i, limit, h)| <= (if i < limit then limit - i else 0)
    decreases limit - i
  {
    if i < limit {
      hide BlockTokens;
      HitsInRange(c, p, toks, i + 1, limit, c.hash(h, BlockTokens(toks, i, c.blockSize)));
    }
  }

  lemma AttachFree(p: Pool, b: nat)
    requires FreeList(p) && b < |p.blocks|
    ensures FreeList(Attach(p, b)) && |Attach(p, b).blocks| == |p.blocks|
    ensures Attach(p, b).used == p.used + {b} && |Attach(p, b).free| == |p.free| - (if b in p.used then 0 else 1)
  {
    if b in p.used {
      assert p.used + {b} == p.used;
    } else {
      RemoveFirstIs(p.free, b);
    }
  }

  /** Pinning uses up one free block for each pinned block that was not in use. */
  lemma {:induction false} PinLeaves(p: Pool, ids: seq<nat>)
    requires FreeList(p) && forall k :: 0 <= k < |ids| ==> ids[k] < |p.blocks|
    ensures FreeList(AttachAll(p, ids)) && |AttachAll(p, ids).free| >= |p.free| - CountOut(ids, p.used)
    decreases |ids|
  {
    if ids != [] {
      hide FreeList, Attach;
      AttachFree(p, ids[0]);
      PinLeaves(Attach(p, ids[0]), ids[1..]);
      CountOutMono(ids[1..], p.used, p.used + {ids[0]});
    }
  }

  // ----- reservations -----

  lemma {:induction false} NeededAppend(c: Config, rows: seq<Row>, highs: seq<nat>, s: Row, high: nat)
    requires c.Valid() && |rows| == |highs|
    ensures TotalNeeded(c, rows + [s], highs + [high]) == TotalNeeded(c, rows, highs) + Needed(c, s, high)
  {
    hide Needed;
    if rows == [] {
      assert [] + [s] == [s] && [] + [high] == [high];
      assert [s][1..] == [] && [high][1..] == [];
    } else {
      assert (rows + [s])[1..] == rows[1..] + [s] && (highs + [high])[1..] == highs[1..] + [high];
      NeededAppend(c, rows[1..], highs[1..], s, high);
    }
  }

  lemma NeededSplit(c: Config, rows: seq<Row>, highs: seq<nat>, i: nat)
    requires c.Valid() && |rows| == |highs| && i <= |rows|
    ensures i == 0 ==> TotalNeeded(c, rows[..i], highs[..i]) == 0
    ensures i > 0 ==> TotalNeeded(c, rows[..i], highs[..i]) == TotalNeeded(c, rows[..i - 1], highs[..i - 1]) + Needed(c, rows[i - 1], highs[i - 1])
  {
    hide Needed;
    if i > 0 {
      assert rows[..i] == rows[..i - 1] + [rows[i - 1]] && highs[..i] == highs[..i - 1] + [highs[i - 1]];
      NeededAppend(c, rows[..i - 1], highs[..i - 1], rows[i - 1], highs[i - 1]);
    }
  }

  ghost predicate AllOwn(p: Pool, rows: seq<Row>) {
    forall i :: 0 <= i < |rows| ==> OwnsItsBlocks(p, rows[i])
  }

  /** The first n rows of a request pass, with `total` blocks asked for so far. */
  ghost predicate RequestTo(c: Config, p: Pool, rows: seq<Row>, highs: seq<nat>, n: nat, seen: set<nat>, total: nat)
    requires c.Valid() && |rows| == |highs|
  {
    && n <= |rows| && (forall k :: 0 <= k < n ==> OwnsItsBlocks(p, rows[k]) && rows[k].id in seen)
    && (forall x :: x in seen ==> exists k :: 0 <= k < n && rows[k].id == x)
    && (forall k, l :: 0 <= k < l < n ==> rows[k].id != rows[l].id)
    && total == TotalNeeded(c, rows[..n], highs[..n])
  }

  lemma RequestStart(c: Config, p: Pool, rows: seq<Row>, highs: seq<nat>)
    requires c.Valid() && |rows| == |highs|
    ensures RequestTo(c, p, rows, highs, 0, {}, 0)
  {
  }

  lemma CheckedStep(c: Config, p: Pool, rows: seq<Row>, highs: seq<nat>, i: nat, seen: set<nat>, total: nat)
    requires c.Valid() && |rows| == |highs| && i < |rows| && RequestTo(c, p, rows, highs, i, seen, total)
    ensures rows[i].id in seen ==> !Distinct(rows)
    ensures !OwnsItsBlocks(p, rows[i]) ==> !AllOwn(p, rows)
    ensures rows[i].id !in seen && OwnsItsBlocks(p, rows[i]) ==>
      RequestTo(c, p, rows, highs, i + 1, seen + {rows[i].id}, total + Needed(c, rows[i], highs[i]))
  {
    hide OwnsItsBlocks, Needed, TotalNeeded;
    NeededSplit(c, rows, highs, i + 1);
    if rows[i].id !in seen && OwnsItsBlocks(p, rows[i]) {
      forall x | x in seen + {rows[i].id} ensures exists k :: 0 <= k < i + 1 && rows[k].id == x {
        if x in seen {
          var k :| 0 <= k < i && rows[k].id == x;
        }
      }
    }
  }

  lemma RequestEnd(c: Config, p: Pool, rows: seq<Row>, highs: seq<nat>, seen: set<nat>, total: nat)
    requires c.Valid() && |rows| == |highs| && RequestTo(c, p, rows, highs, |rows|, seen, total)
    ensures Distinct(rows) && AllOwn(p, rows) && total == TotalNeeded(c, rows, highs)
  {
    hide OwnsItsBlocks, TotalNeeded;
    assert rows[..|rows|] == rows && highs[..|rows|] == highs;
  }

  lemma ToSetCons(q: seq<nat>)
    requires q != []
    ensures ToSet(q) == {q[0]} + ToSet(q[1..])
  {
    assert q == [q[0]] + q[1..];
  }

  lemma {:induction false} DupFree(q: seq<nat>)
    ensures |ToSet(q)| <= |q|
    ensures |ToSet(q)| == |q| <==> NoDup(q)
  {
    if q == [] {
      assert ToSet(q) == {};
    } else {
      hide NoDup;
      DupFree(q[1..]);
      ToSetCons(q);
      NoDupCons(q);
      if q[0] in q[1..] { assert ToSet(q) == ToSet(q[1..]); } else { assert |ToSet(q)| == |ToSet(q[1..])| + 1; }
    }
  }

  lemma PartitionIs(p: Pool)
    ensures FreeList(p) <==>
      |ToSet(p.free)| == |p.free| && ToSet(p.free) * p.used == {} && ToSet(p.free) + p.used == Range(|p.blocks|)
  {
    DupFree(p.free);
    var f, all := ToSet(p.free), Range(|p.blocks|);
    if FreeList(p) {
      assert f * p.used == {};
      assert f + p.used == all;
    }
    if NoDup(p.free) && f * p.used == {} && f + p.used == all {
      forall b | b in p.free ensures b < |p.blocks| && b !in p.used {
        assert b in f + p.used;
        assert (b in f * p.used) == (b in f && b in p.used);
      }
      forall b | b in p.used ensures b < |p.blocks| && b !in p.free {
        assert b in f + p.used;
        assert (b in f * p.used) == (b in f && b in p.used);
      }
      forall b: nat | b < |p.blocks| ensures b in p.free || b in p.used { assert b in all; }
    }
  }

  lemma DistinctSeparate(q: seq<Sequence>)
    requires Distinct(Views(q))
    ensures Separate(q)
  {
    forall i, j | 0 <= i < j < |q| ensures q[i] != q[j] {
      assert Views(q)[i].id != Views(q)[j].id;
    }
  }

  lemma CandidatesInRange(p: Pool, n: nat)
    requires FreeList(p) && n <= |p.free|
    ensures forall b :: b in p.free[..n] ==> b < |p.blocks|
  {
    forall b | b in p.free[..n] ensures b < |p.blocks| { assert b in p.free; }
  }

  /** Every way a reservation can be turned down. */
  lemma ReserveFails(c: Config, p: Pool, rows: seq<Row>, highs: seq<nat>)
    requires c.Valid() && |rows| == |highs|
    ensures var r := Leases.Reserve(c, p, rows, highs);
      var n := TotalNeeded(c, rows, highs);
      if !Distinct(rows) || !AllOwn(p, rows) then r.ReserveFailed?
      else if n > |p.free| then r == NoCapacity
      else if !FreeList(p) || (exists b :: b in p.free[..n] && b < |p.blocks| && p.blocks[b].refs != 0) then r.ReserveFailed?
      else r.Reserved?
  {
    hide GrowAll, TotalNeeded, Distinct, OwnsItsBlocks, Snapshot, Tables, FreeList;
  }

  lemma ReserveIs(c: Config, p: Pool, rows: seq<Row>, highs: seq<nat>)
    requires c.Valid() && |rows| == |highs| && Distinct(rows) && AllOwn(p, rows) && FreeList(p)
    requires var n := TotalNeeded(c, rows, highs);
      n <= |p.free| && forall b :: b in p.free[..n] && b < |p.blocks| ==> p.blocks[b].refs == 0
    ensures var g := GrowAll(c, p, rows, highs);
      var order := p.free[..TotalNeeded(c, rows, highs)];
      Leases.Reserve(c, p, rows, highs) ==
        Reserved(g.pool, g.rows, Lease(g.leased, order, p.free, p.used, p.index, Snapshot(p, ToSet(order) + Tables(rows))))
  {
    hide GrowAll, TotalNeeded, Distinct, OwnsItsBlocks, Snapshot, Tables, FreeList;
  }

  lemma LiveParts(p: Pool, rows: seq<Row>, l: Lease)
    requires Live(p, rows, l)
    ensures |rows| == |l.rows| && forall b :: b in l.states ==> b < |p.blocks|
  {
    hide NoDup, Flatten, BeforeTables, RowMatches;
  }

  /** Rows ..i have been grown, into `done` and `leased`; p is the pool by now. */
  ghost predicate Growing(c: Config, p0: Pool, q: seq<Row>, highs: seq<nat>, p: Pool, i: nat, done: seq<Row>, leased: seq<LeaseRow>)
    requires c.Valid() && |q| == |highs|
  {
    && i <= |q| && TotalNeeded(c, q[i..], highs[i..]) <= |p.free|
    && (forall k :: 0 <= k < |p.free| ==> p.free[k] < |p.blocks|)
    && var g := GrowAll(c, p, q[i..], highs[i..]);
       GrowAll(c, p0, q, highs) == Growth(g.pool, done + g.rows, leased + g.leased)
  }

  lemma GrowingStart(c: Config, p: Pool, q: seq<Row>, highs: seq<nat>)
    requires c.Valid() && |q| == |highs| && FreeList(p) && TotalNeeded(c, q, highs) <= |p.free|
    ensures Growing(c, p, q, highs, p, 0, [], [])
  {
    FreeInRange(p);
    hide GrowAll, TotalNeeded, FreeList;
    assert q[0..] == q && highs[0..] == highs;
    var g := GrowAll(c, p, q, highs);
    assert [] + g.rows == g.rows && [] + g.leased == g.leased;
  }

  lemma GrowingEnd(c: Config, p0: Pool, q: seq<Row>, highs: seq<nat>, p: Pool, done: seq<Row>, leased: seq<LeaseRow>)
    requires c.Valid() && |q| == |highs| && Growing(c, p0, q, highs, p, |q|, done, leased)
    ensures GrowAll(c, p0, q, highs) == Growth(p, done, leased)
  {
    assert q[|q|..] == [] && done + [] == done && leased + [] == leased;
  }

  lemma {:induction false} GrowSize(p: Pool, t: seq<nat>, n: nat)
    ensures |Grow(p, t, n).0.blocks| == |p.blocks|
    decreases n
  {
    if n > 0 && p.free != [] { GrowSize(Take(p), t + [p.free[0]], n - 1); }
  }

  lemma GrowingStep(c: Config, p0: Pool, q: seq<Row>, highs: seq<nat>, p: Pool, i: nat, done: seq<Row>, leased: seq<LeaseRow>)
    requires c.Valid() && |q| == |highs| && i < |q| && Growing(c, p0, q, highs, p, i, done, leased)
    ensures var n := Needed(c, q[i], highs[i]);
      && n <= |p.free| && (forall k :: 0 <= k < n ==> p.free[k] < |p.blocks|)
      && Grow(p, q[i].table, n).1 == q[i].table + p.free[..n]
      && Growing(c, p0, q, highs, Grow(p, q[i].table, n).0, i + 1, done + [q[i].(table := q[i].table + p.free[..n])],
                 leased + [LeaseRow(q[i].id, q[i].table, p.free[..n], q[i].cached, q[i].draft)])
  {
    hide Grow, Needed;
    var n := Needed(c, q[i], highs[i]);
    var a, h := q[i..], highs[i..];
    assert a[0] == q[i] && a[1..] == q[i + 1..] && h[0] == highs[i] && h[1..] == highs[i + 1..];
    assert n <= |p.free|;
    GrowShape(p, q[i].table, n);
    GrowSize(p, q[i].table, n);
    var p1 := Grow(p, q[i].table, n).0;
    var g := GrowAll(c, p1, a[1..], h[1..]);
    var s, l := q[i].(table := q[i].table + p.free[..n]), LeaseRow(q[i].id, q[i].table, p.free[..n], q[i].cached, q[i].draft);
    assert GrowAll(c, p, a, h) == Growth(g.pool, [s] + g.rows, [l] + g.leased);
    assert done + ([s] + g.rows) == done + [s] + g.rows && leased + ([l] + g.leased) == leased + [l] + g.leased;
  }

  // ----- the group check of failed schedules -----

  ghost predicate RowUndoable(c: Config, p: Pool, s: Row)
    requires c.Valid()
  {
    && Planned(s) && (|s.table| == CeilDiv(s.cached, c.blockSize) || Appended(c, s))
    && (Appended(c, s) ==> FreshSuffix(p, s))
  }

  function LastOf(s: Row): nat
    requires s.table != []
  {
    s.table[|s.table| - 1]
  }

  /** The table as it was before the row was scheduled. */
  function PrefixOf(c: Config, s: Row): set<nat>
    requires c.Valid()
  {
    if CeilDiv(s.cached, c.blockSize) <= |s.table| then ToSet(s.table[..CeilDiv(s.cached, c.blockSize)]) else {}
  }

  /** The first n rows pass, and `seen` holds their appended blocks, each once. */
  ghost predicate SuffixesTo(c: Config, p: Pool, q: seq<Row>, n: nat, seen: set<nat>)
    requires c.Valid()
  {
    && n <= |q| && (forall k :: 0 <= k < n ==> RowUndoable(c, p, q[k]))
    && (forall k :: 0 <= k < n && Appended(c, q[k]) ==> LastOf(q[k]) in seen)
    && (forall b :: b in seen ==> exists k :: 0 <= k < n && Appended(c, q[k]) && LastOf(q[k]) == b)
    && (forall k, l :: 0 <= k < l < n && Appended(c, q[k]) && Appended(c, q[l]) ==> LastOf(q[k]) != LastOf(q[l]))
  }

  lemma NoSuffixes(c: Config, p: Pool, q: seq<Row>)
    requires c.Valid()
    ensures SuffixesTo(c, p, q, 0, {})
  {
  }

  /** One more row that passed. */
  lemma SuffixNext(c: Config, p: Pool, q: seq<Row>, i: nat, seen: set<nat>)
    requires c.Valid() && i < |q| && SuffixesTo(c, p, q, i, seen) && RowUndoable(c, p, q[i])
    ensures !Appended(c, q[i]) ==> SuffixesTo(c, p, q, i + 1, seen)
    ensures Appended(c, q[i]) ==> q[i].table != [] && (LastOf(q[i]) !in seen ==> SuffixesTo(c, p, q, i + 1, seen + {LastOf(q[i])}))
  {
    hide CeilDiv, RowUndoable;
    assert Appended(c, q[i]) ==> q[i].table != [];
    if Appended(c, q[i]) && LastOf(q[i]) !in seen {
      var seen' := seen + {LastOf(q[i])};
      forall b | b in seen' ensures exists k :: 0 <= k < i + 1 && Appended(c, q[k]) && LastOf(q[k]) == b {
        if b in seen {
          var k :| 0 <= k < i && Appended(c, q[k]) && LastOf(q[k]) == b;
        }
      }
    }
  }

  lemma UndoneInRange(c: Config, p: Pool, q: seq<Row>)
    requires c.Valid() && UndoAllowed(c, p, q)
    ensures forall i :: 0 <= i < |q| && Appended(c, q[i]) ==> q[i].table[|q[i].table| - 1] < |p.blocks|
  {
    hide CeilDiv, Planned;
  }

  lemma ViewsCons(q: seq<Sequence>, i: nat)
    requires i < |q|
    ensures Views(q[i..]) == [q[i].View()] + Views(q[i + 1..])
  {
    assert q[i..][0] == q[i] && q[i..][1..] == q[i + 1..];
  }

  /** Rows i.. have been undone, into `tail`; p is the pool by now. */
  ghost predicate Undoing(c: Config, p0: Pool, q: seq<Row>, p: Pool, i: nat, tail: seq<Row>)
    requires c.Valid()
  {
    && i <= |q| && UndoAll(c, p0, q).0 == UndoAll(c, p, q[..i]).0
    && UndoAll(c, p0, q).1 == UndoAll(c, p, q[..i]).1 + tail
  }

  lemma UndoStart(c: Config, p: Pool, q: seq<Row>)
    requires c.Valid()
    ensures Undoing(c, p, q, p, |q|, [])
  {
    hide UndoAll;
    assert q[..|q|] == q;
    assert UndoAll(c, p, q).1 + [] == UndoAll(c, p, q).1;
  }

  lemma UndoEnd(c: Config, p0: Pool, q: seq<Row>, p: Pool, tail: seq<Row>)
    requires c.Valid() && Undoing(c, p0, q, p, 0, tail)
    ensures UndoAll(c, p0, q) == (p, tail)
  {
    assert q[..0] == [] && [] + tail == tail;
  }

  lemma UndoStep(c: Config, p0: Pool, q: seq<Row>, p: Pool, i: nat, tail: seq<Row>)
    requires c.Valid() && i < |q| && Undoing(c, p0, q, p, i + 1, tail)
    ensures var (p1, s) := UndoRow(c, p, q[i]); Undoing(c, p0, q, p1, i, [s] + tail)
  {
    hide UndoRow;
    assert q[..i + 1][..i] == q[..i] && q[..i + 1][i] == q[i];
    var (p1, s) := UndoRow(c, p, q[i]);
    var front := UndoAll(c, p1, q[..i]).1;
    assert front + [s] + tail == front + ([s] + tail);
  }

  /** The earlier tables of the first n rows name no appended block. */
  ghost predicate PrefixesApart(c: Config, q: seq<Row>, n: nat, seen: set<nat>)
    requires c.Valid()
  {
    n <= |q| && forall k :: 0 <= k < n ==> PrefixOf(c, q[k]) * seen == {}
  }

  lemma NoPrefixes(c: Config, q: seq<Row>, seen: set<nat>)
    requires c.Valid()
    ensures PrefixesApart(c, q, 0, seen)
  {
  }

  lemma PrefixIs(c: Config, q: seq<Row>, i: nat, seen: set<nat>, prefix: set<nat>)
    requires c.Valid() && i < |q| && PrefixesApart(c, q, i, seen)
    requires var n := CeilDiv(q[i].cached, c.blockSize); prefix == if n <= |q[i].table| then ToSet(q[i].table[..n]) else {}
    ensures PrefixOf(c, q[i]) == prefix && (prefix * seen == {} ==> PrefixesApart(c, q, i + 1, seen))
  {
    hide CeilDiv;
  }

  lemma RowRefused(c: Config, p: Pool, q: seq<Row>, i: nat)
    requires c.Valid() && i < |q|
    ensures UndoAllowed(c, p, q) ==> RowUndoable(c, p, q[i])
  {
    hide CeilDiv, FreshSuffix;
  }

  lemma FreshIs(p: Pool, s: Row)
    requires s.table != []
    ensures FreshSuffix(p, s) <==>
      var n := |s.table| - 1;
      var b := s.table[n];
      b < |p.blocks| && b in p.used && b !in p.free && p.blocks[b] == FRESH && b !in s.table[..n]
  {
  }

  /** Two rows that end in the same appended block are refused. */
  lemma SuffixShared(c: Config, p: Pool, q: seq<Row>, i: nat, seen: set<nat>)
    requires c.Valid() && i < |q| && SuffixesTo(c, p, q, i, seen) && q[i].table != [] && LastOf(q[i]) in seen
    ensures !UndoAllowed(c, p, q)
  {
    hide CeilDiv, FreshSuffix, Planned;
    var k :| 0 <= k < i && Appended(c, q[k]) && LastOf(q[k]) == LastOf(q[i]);
    assert LastOf(q[i]) in q[i].table;
  }

  /** An appended block inside another row's earlier table is refused. */
  lemma PrefixShared(c: Config, p: Pool, q: seq<Row>, i: nat, seen: set<nat>)
    requires c.Valid() && i < |q| && SuffixesTo(c, p, q, |q|, seen) && PrefixOf(c, q[i]) * seen != {}
    ensures !UndoAllowed(c, p, q)
  {
    hide CeilDiv, Planned;
    var b :| b in PrefixOf(c, q[i]) && b in seen;
    var k :| 0 <= k < |q| && Appended(c, q[k]) && LastOf(q[k]) == b;
    assert RowUndoable(c, p, q[k]) && RowUndoable(c, p, q[i]);
    assert b in q[i].table;
  }

  lemma NotInBoth(a: set<nat>, b: set<nat>, x: nat)
    requires a * b == {} && x in b
    ensures x !in a
  {
    assert (x in a * b) == (x in a && x in b);
  }

  lemma AllUndoable(c: Config, p: Pool, q: seq<Row>, seen: set<nat>)
    requires c.Valid() && SuffixesTo(c, p, q, |q|, seen) && PrefixesApart(c, q, |q|, seen)
    ensures UndoAllowed(c, p, q)
  {
    hide CeilDiv, Planned, FreshSuffix;
    forall i, j | 0 <= i < |q| && 0 <= j < |q| && i != j && Appended(c, q[i])
      ensures LastOf(q[i]) !in q[j].table
    {
      var b := LastOf(q[i]);
      assert b in seen && RowUndoable(c, p, q[j]);
      NotInBoth(PrefixOf(c, q[j]), seen, b);
      var n := CeilDiv(q[j].cached, c.blockSize);
      if Appended(c, q[j]) {
        assert q[j].table == q[j].table[..n] + [LastOf(q[j])];
      } else {
        assert q[j].table == q[j].table[..n];
      }
    }
  }

  /** One round of the prefix lookup. */
  lemma HitsStep(c: Config, p: Pool, toks: seq<Token>, i: nat, limit: nat, h: int, found: seq<nat>)
    requires c.Valid() && i < limit
    ensures var blk := BlockTokens(toks, i, c.blockSize);
      var d := c.hash(h, blk);
      if d in p.index && p.index[d] < |p.blocks| && p.blocks[p.index[d]].toks == blk
      then found + Hits(c, p, toks, i, limit, h) == found + [p.index[d]] + Hits(c, p, toks, i + 1, limit, d)
      else Hits(c, p, toks, i, limit, h) == []
  {
    hide BlockTokens;
    var d := c.hash(h, BlockTokens(toks, i, c.blockSize));
    if d in p.index {
      assert found + ([p.index[d]] + Hits(c, p, toks, i + 1, limit, d)) == found + [p.index[d]] + Hits(c, p, toks, i + 1, limit, d);
    }
  }

  lemma HitsEnd(c: Config, p: Pool, toks: seq<Token>, i: nat, limit: nat, h: int)
    requires c.Valid()
    ensures i >= limit ==> Hits(c, p, toks, i, limit, h) == []
  {
  }

  /** One row of a finalized lease. */
  function KeepRow(s: Row, r: LeaseRow, n: int): Row
    requires 0 <= n <= |r.appended|
  {
    s.(table := r.before + r.appended[..n])
  }

  lemma KeptIs(rows: seq<Row>, leased: seq<LeaseRow>, keep: seq<int>)
    requires |rows| == |leased| && KeepFits(leased, keep)
    ensures KeepRows(rows, leased, keep) == seq(|rows|, i requires 0 <= i < |rows| => KeepRow(rows[i], leased[i], keep[i]))
  {
  }
}
