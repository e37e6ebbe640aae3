/** The counting sort of BF16 logits: an order-preserving key, a histogram, exclusive
    prefix sums and an expansion that writes every output cell once. */
module CountingSort {
  import opened Arith

  const NUM_KEYS: nat := 65536
  const SIGN: nat := 32768
  const BLOCK_SIZE: nat := 256
  const BLOCK_KEYS: nat := 256
  const BLOCK_OFFSETS: nat := 16

  /** A 16-bit pattern, or its key. */
  type Bits = x: int | 0 <= x < 65536

  /** The ordered key of a bit pattern, as the histogram computes it: the complement of
      a negative pattern, the sign bit flipped otherwise. */
  function KeyOf(b: Bits): Bits {
    if b >= SIGN then NUM_KEYS - 1 - b else b + SIGN
  }

  /** The bit pattern of a key, as the table of ordered values lists it. */
  function BitsOf(k: Bits): Bits {
    if k < SIGN then NUM_KEYS - 1 - k else k - SIGN
  }

  function Pow2(n: nat): nat {
    if n == 0 then 1 else 2 * Pow2(n - 1)
  }

  /** Bit i of a number. */
  function Bit(x: nat, i: nat): nat {
    if i == 0 then x % 2 else Bit(x / 2, i - 1)
  }

  lemma {:induction false} ComplementBits(n: nat, x: nat, i: nat)
    requires x < Pow2(n) && i < n
    ensures Bit(Pow2(n) - 1 - x, i) == 1 - Bit(x, i)
    decreases i
  {
    assert (Pow2(n) - 1 - x) / 2 == Pow2(n - 1) - 1 - x / 2;
    if i > 0 { ComplementBits(n - 1, x / 2, i - 1); }
  }

  lemma {:induction false} SetTopBit(n: nat, x: nat, i: nat)
    requires x < Pow2(n) && i <= n
    ensures Bit(x, n) == 0 && Bit(x + Pow2(n), i) == if i == n then 1 else Bit(x, i)
    decreases n
  {
    if n > 0 {
      assert (x + Pow2(n)) / 2 == x / 2 + Pow2(n - 1) && (x + Pow2(n)) % 2 == x % 2;
      SetTopBit(n - 1, x / 2, if i > 0 then i - 1 else 0);
    }
  }

  /** Both maps are the bitwise formulas: all sixteen bits flip when the sign bit says
      so, otherwise only bit 15 does. */
  lemma KeysAreBitwise(x: Bits, i: nat)
    requires i < 16
    ensures Bit(KeyOf(x), i) == if Bit(x, 15) == 1 || i == 15 then 1 - Bit(x, i) else Bit(x, i)
    ensures Bit(BitsOf(x), i) == if Bit(x, 15) == 0 || i == 15 then 1 - Bit(x, i) else Bit(x, i)
  {
    assert Pow2(5) == 32 && Pow2(10) == 1024;
    assert Pow2(15) == SIGN && Pow2(16) == NUM_KEYS;
    hide Pow2;
    ComplementBits(16, x, i);
    var low := if x >= SIGN then x - SIGN else x;
    SetTopBit(15, low, i);
    SetTopBit(15, low, 15);
  }

  /** The two maps are mutually inverse on all 16-bit patterns. */
  lemma KeysInvert(x: Bits)
    ensures BitsOf(KeyOf(x)) == x && KeyOf(BitsOf(x)) == x
  {
  }

  // ----- what a bit pattern denotes -----

  /** Neither an infinity nor a NaN: the 8-bit exponent is not all ones. */
  predicate Finite(b: Bits) { (b % SIGN) / 128 != 255 }

  /** Magnitude of a finite pattern, in units of the smallest subnormal. */
  function Magnitude(m: nat): nat {
    if m / 128 == 0 then m % 128 else (128 + m % 128) * Pow2(m / 128 - 1)
  }

  /** The value of a finite pattern, in the same units. */
  function Value(b: Bits): int {
    if b >= SIGN then -(Magnitude(b - SIGN) as int) else Magnitude(b)
  }

  lemma {:induction false} Pow2Positive(n: nat)
    ensures Pow2(n) >= 1
  {
    if n > 0 { Pow2Positive(n - 1); }
  }

  lemma MagnitudeStep(m: nat)
    ensures Magnitude(m) < Magnitude(m + 1)
  {
    var e, f := m / 128, m % 128;
    assert m == 128 * e + f;
    if f < 127 {
      assert (m + 1) / 128 == e && (m + 1) % 128 == f + 1;
      if e > 0 {
        Pow2Positive(e - 1);
        assert (128 + f + 1) * Pow2(e - 1) == (128 + f) * Pow2(e - 1) + Pow2(e - 1);
      }
    } else {
      assert (m + 1) / 128 == e + 1 && (m + 1) % 128 == 0;
      Pow2Positive(e);
      if e > 0 { assert Pow2(e) == 2 * Pow2(e - 1); }
    }
  }

  /** Magnitudes grow with the pattern, across subnormals and every exponent. */
  lemma {:induction false} MagnitudeGrows(m: nat, n: nat)
    requires m < n
    ensures Magnitude(m) < Magnitude(n)
    decreases n - m
  {
    hide Magnitude;
    MagnitudeStep(n - 1);
    if m < n - 1 { MagnitudeGrows(m, n - 1); }
  }

  lemma MagnitudeZero(m: nat)
    ensures Magnitude(m) == 0 <==> m == 0
  {
    if m > 0 { MagnitudeGrows(0, m); }
  }

  /** Keys order finite patterns as their values are ordered; only the two zeros have
      different keys and one value. */
  lemma KeyPreservesOrder(a: Bits, b: Bits)
    requires Finite(a) && Finite(b)
    ensures Value(a) < Value(b) ==> KeyOf(a) < KeyOf(b)
    ensures KeyOf(a) <= KeyOf(b) ==> Value(a) <= Value(b)
    ensures Value(a) == Value(b) ==> a == b || {a, b} == {0, SIGN}
  {
    hide Magnitude;
    var m, n := a % SIGN, b % SIGN;
    MagnitudeZero(m);
    MagnitudeZero(n);
    if m < n { MagnitudeGrows(m, n); }
    if n < m { MagnitudeGrows(n, m); }
  }

  // ----- histogram -----

  function Count(s: seq<Bits>, k: int): nat {
    if s == [] then 0 else Count(s[..|s| - 1], k) + if s[|s| - 1] == k then 1 else 0
  }

  lemma {:induction false} CountIsMultiset(s: seq<Bits>, k: int)
    requires 0 <= k < NUM_KEYS
    ensures multiset(s)[k] == Count(s, k)
  {
    if s != [] {
      CountIsMultiset(s[..|s| - 1], k);
      assert s == s[..|s| - 1] + [s[|s| - 1]];
    }
  }

  lemma SameCounts(a: seq<Bits>, b: seq<Bits>)
    requires forall k :: 0 <= k < NUM_KEYS ==> Count(a, k) == Count(b, k)
    ensures multiset(a) == multiset(b)
  {
    var m: multiset<Bits>, n: multiset<Bits> := multiset(a), multiset(b);
    forall k: Bits ensures m[k] == n[k] {
      CountIsMultiset(a, k);
      CountIsMultiset(b, k);
    }
  }

  function Keys(row: seq<Bits>): (r: seq<Bits>)
    ensures |r| == |row|
  {
    seq(|row|, i requires 0 <= i < |row| => KeyOf(row[i]))
  }

  lemma {:induction false} KeyCount(row: seq<Bits>, b: Bits)
    ensures Count(Keys(row), KeyOf(b)) == Count(row, b)
  {
    if row != [] {
      KeyCount(row[..|row| - 1], b);
      assert Keys(row)[..|row| - 1] == Keys(row[..|row| - 1]);
    }
  }

  ghost predicate Counted(counts: seq<nat>, s: seq<Bits>) {
    |counts| == NUM_KEYS && forall k :: 0 <= k < NUM_KEYS ==> counts[k] == Count(s, k)
  }

  lemma CountedNext(counts: seq<nat>, s: seq<Bits>, i: nat)
    requires i < |s| && Counted(counts, s[..i])
    ensures Counted(counts[s[i] := counts[s[i]] + 1], s[..i + 1])
  {
    assert s[..i + 1][..i] == s[..i];
  }

  /** One pass over the columns, block by block, one count per element. */
  method Histogram(row: seq<Bits>, counts: array<nat>)
    requires counts.Length == NUM_KEYS && forall k :: 0 <= k < NUM_KEYS ==> counts[k] == 0
    modifies counts
    ensures Counted(counts[..], Keys(row))
  {
    ghost var keys := Keys(row);
    var block := 0;
    assert keys[..0] == [];
    while block * BLOCK_SIZE < |row|
      invariant 0 <= block
      invariant Counted(counts[..], keys[..Min(block * BLOCK_SIZE, |row|)])
      decreases |row| - block * BLOCK_SIZE
    {
      var lane := 0;
      while lane < BLOCK_SIZE
        invariant 0 <= lane <= BLOCK_SIZE
        invariant Counted(counts[..], keys[..Min(block * BLOCK_SIZE + lane, |row|)])
      {
        var column := block * BLOCK_SIZE + lane;
        if column < |row| {
          var key := KeyOf(row[column]);
          CountedNext(counts[..], keys, column);
          ghost var was := counts[..];
          counts[key] := counts[key] + 1;
          assert counts[..] == was[key := was[key] + 1];
        }
        lane := lane + 1;
      }
      block := block + 1;
    }
    assert keys[..|row|] == keys;
  }

  // ----- prefix sums -----

  function Sum(counts: seq<nat>, n: nat): nat
    requires n <= |counts|
  {
    if n == 0 then 0 else Sum(counts, n - 1) + counts[n - 1]
  }

  /** Running sums, then the counts subtracted in place: every key's first cell. */
  method ExclusiveSums(counts: array<nat>, starts: array<int>)
    requires counts.Length == starts.Length
    modifies starts
    ensures forall k :: 0 <= k < starts.Length ==> starts[k] == Sum(old(counts[..]), k)
  {
    ghost var all := counts[..];
    var i, total := 0, 0;
    while i < counts.Length
      invariant 0 <= i <= counts.Length && total == Sum(all, i)
      invariant forall k :: 0 <= k < i ==> starts[k] == Sum(all, k + 1)
    {
      total := total + counts[i];
      starts[i] := total;
      i := i + 1;
    }
    i := 0;
    while i < counts.Length
      invariant 0 <= i <= counts.Length
      invariant forall k :: 0 <= k < i ==> starts[k] == Sum(all, k)
      invariant forall k :: i <= k < counts.Length ==> starts[k] == Sum(all, k + 1)
    {
      assert starts[i] - counts[i] == Sum(all, i);
      starts[i] := starts[i] - counts[i];
      i := i + 1;
    }
  }

  // ----- expansion -----

  function Repeat(k: Bits, n: nat): (r: seq<Bits>)
    ensures |r| == n && forall i :: 0 <= i < n ==> r[i] == k
  {
    seq(n, i => k)
  }

  /** Keys 0..n, each as often as it was counted. */
  function Expanded(counts: seq<nat>, n: nat): seq<Bits>
    requires n <= |counts| <= NUM_KEYS
  {
    if n == 0 then [] else Expanded(counts, n - 1) + Repeat(n - 1, counts[n - 1])
  }

  ghost predicate CellHolds(counts: seq<nat>, n: nat, x: int, k: int)
    requires n <= |counts|
  {
    0 <= k < n && Sum(counts, k) <= x < Sum(counts, k) + counts[k]
  }

  lemma {:induction false} ExpandedIs(counts: seq<nat>, n: nat)
    requires n <= |counts| <= NUM_KEYS
    ensures |Expanded(counts, n)| == Sum(counts, n)
    ensures forall x :: 0 <= x < Sum(counts, n) ==> CellHolds(counts, n, x, Expanded(counts, n)[x])
  {
    if n > 0 {
      ExpandedIs(counts, n - 1);
      var e, r := Expanded(counts, n - 1), Repeat(n - 1, counts[n - 1]);
      forall x | 0 <= x < Sum(counts, n) ensures CellHolds(counts, n, x, Expanded(counts, n)[x]) {
        if x < |e| { assert CellHolds(counts, n - 1, x, e[x]); }
      }
    }
  }

  lemma {:induction false} SumGrows(counts: seq<nat>, k: nat, n: nat)
    requires k <= n <= |counts|
    ensures Sum(counts, k) <= Sum(counts, n)
    decreases n
  {
    if k < n { SumGrows(counts, k, n - 1); }
  }

  /** Offset o of key k is one cell, and it belongs to k. */
  lemma CellOf(counts: seq<nat>, n: nat, k: nat, o: nat)
    requires k < n <= |counts| <= NUM_KEYS && o < counts[k]
    ensures Sum(counts, k) + o < Sum(counts, n) == |Expanded(counts, n)|
    ensures Expanded(counts, n)[Sum(counts, k) + o] == k
  {
    ExpandedIs(counts, n);
    SumGrows(counts, k + 1, n);
    var x := Sum(counts, k) + o;
    assert Sum(counts, k + 1) == Sum(counts, k) + counts[k];
    var j := Expanded(counts, n)[x];
    assert CellHolds(counts, n, x, j) && Sum(counts, j + 1) == Sum(counts, j) + counts[j];
    if j < k { SumGrows(counts, j + 1, k); }
    if k < j { SumGrows(counts, k + 1, j); }
  }

  lemma {:induction false} ExpandedSorted(counts: seq<nat>, n: nat)
    requires n <= |counts| <= NUM_KEYS
    ensures forall x, y :: 0 <= x <= y < |Expanded(counts, n)| ==> Expanded(counts, n)[x] <= Expanded(counts, n)[y]
  {
    if n > 0 {
      ExpandedSorted(counts, n - 1);
      ExpandedIs(counts, n - 1);
      var e, r, all := Expanded(counts, n - 1), Repeat(n - 1, counts[n - 1]), Expanded(counts, n);
      forall x, y | 0 <= x <= y < |all| ensures all[x] <= all[y] {
        assert all[x] == if x < |e| then e[x] else r[x - |e|];
        assert all[y] == if y < |e| then e[y] else r[y - |e|];
        if x < |e| { assert CellHolds(counts, n - 1, x, e[x]); }
      }
    }
  }

  lemma {:induction false} RepeatCount(k: Bits, n: nat, j: int)
    ensures Count(Repeat(k, n), j) == if j == k then n else 0
  {
    if n > 0 {
      RepeatCount(k, n - 1, j);
      assert Repeat(k, n)[..n - 1] == Repeat(k, n - 1);
    }
  }

  lemma {:induction false} CountConcat(a: seq<Bits>, b: seq<Bits>, j: int)
    ensures Count(a + b, j) == Count(a, j) + Count(b, j)
  {
    if b == [] {
      assert a + b == a;
    } else {
      CountConcat(a, b[..|b| - 1], j);
      assert (a + b)[..|a + b| - 1] == a + b[..|b| - 1];
    }
  }

  lemma {:induction false} ExpandedCount(counts: seq<nat>, n: nat, j: int)
    requires n <= |counts| <= NUM_KEYS
    ensures Count(Expanded(counts, n), j) == if 0 <= j < n then counts[j] else 0
  {
    if n > 0 {
      ExpandedCount(counts, n - 1, j);
      RepeatCount(n - 1, counts[n - 1], j);
      CountConcat(Expanded(counts, n - 1), Repeat(n - 1, counts[n - 1]), j);
    }
  }

  /** Expanding the counts of a row is a sorted permutation of its keys. */
  lemma ExpandedIsSortedRow(counts: seq<nat>, keys: seq<Bits>)
    requires Counted(counts, keys)
    ensures multiset(Expanded(counts, NUM_KEYS)) == multiset(keys)
    ensures |Expanded(counts, NUM_KEYS)| == Sum(counts, NUM_KEYS) == |keys|
    ensures forall x, y :: 0 <= x <= y < |keys| ==> Expanded(counts, NUM_KEYS)[x] <= Expanded(counts, NUM_KEYS)[y]
  {
    hide Expanded, Sum;
    var e := Expanded(counts, NUM_KEYS);
    ExpandedSorted(counts, NUM_KEYS);
    ExpandedIs(counts, NUM_KEYS);
    forall k | 0 <= k < NUM_KEYS ensures Count(e, k) == Count(keys, k) { ExpandedCount(counts, NUM_KEYS, k); }
    SameCounts(e, keys);
    assert |multiset(e)| == |e| && |multiset(keys)| == |keys|;
  }

  /** What the kernel has stored of key k at offset o once it is done with the key blocks
      below lo, in the block from lo with the rounds below base, in this round with the
      keys below `now`, and of key `now` with `off` lanes. */
  predicate Stored(k: int, o: int, lo: int, base: int, now: int, off: int) {
    k < lo || (k < lo + BLOCK_KEYS &&
               (o < base || (k < now && o < base + BLOCK_OFFSETS) || (k == now && o < base + off)))
  }

  /** Every stored cell holds its key's value and was written once; the others never. */
  ghost predicate Progress(counts: seq<nat>, output: seq<Bits>, writes: seq<nat>,
                           lo: int, base: int, now: int, off: int)
    requires |counts| == NUM_KEYS
  {
    var e := Expanded(counts, NUM_KEYS);
    && |output| == |writes| == |e|
    && forall x :: 0 <= x < |output| ==>
        if Stored(e[x], x - Sum(counts, e[x]), lo, base, now, off) then output[x] == BitsOf(e[x]) && writes[x] == 1
        else writes[x] == 0
  }

  lemma StartExpanding(counts: seq<nat>, output: seq<Bits>, writes: seq<nat>)
    requires |counts| == NUM_KEYS && |output| == |writes| == |Expanded(counts, NUM_KEYS)|
    requires forall x :: 0 <= x < |writes| ==> writes[x] == 0
    ensures Progress(counts, output, writes, 0, 0, 0, 0)
  {
    ExpandedIs(counts, NUM_KEYS);
    var e := Expanded(counts, NUM_KEYS);
    forall x | 0 <= x < |output| ensures !Stored(e[x], x - Sum(counts, e[x]), 0, 0, 0, 0) {
      assert CellHolds(counts, NUM_KEYS, x, e[x]);
    }
  }

  /** Store one lane: the cell it writes was never written before. */
  lemma StoreStep(counts: seq<nat>, output: seq<Bits>, writes: seq<nat>, lo: int, base: nat, key: nat, off: nat)
    requires |counts| == NUM_KEYS && Progress(counts, output, writes, lo, base, key, off)
    requires lo <= key < lo + BLOCK_KEYS && key < NUM_KEYS && base + off < counts[key]
    ensures var x := Sum(counts, key) + (base + off);
      && x < |output| == |writes| && writes[x] == 0
      && Progress(counts, output[x := BitsOf(key)], writes[x := 1], lo, base, key, off + 1)
  {
    hide Expanded, Sum;
    CellOf(counts, NUM_KEYS, key, base + off);
    var e, x := Expanded(counts, NUM_KEYS), Sum(counts, key) + (base + off);
    forall y | 0 <= y < |output| && y != x
      ensures Stored(e[y], y - Sum(counts, e[y]), lo, base, key, off + 1) <==> Stored(e[y], y - Sum(counts, e[y]), lo, base, key, off)
    {
    }
  }

  /** A masked lane has no cell. */
  lemma MaskStep(counts: seq<nat>, output: seq<Bits>, writes: seq<nat>, lo: int, base: nat, key: nat, off: nat)
    requires |counts| == NUM_KEYS && Progress(counts, output, writes, lo, base, key, off)
    requires lo <= key < lo + BLOCK_KEYS && key < NUM_KEYS && base + off >= counts[key]
    ensures Progress(counts, output, writes, lo, base, key, off + 1)
  {
    ExpandedIs(counts, NUM_KEYS);
    hide Expanded, Sum;
    var e := Expanded(counts, NUM_KEYS);
    forall y | 0 <= y < |output|
      ensures Stored(e[y], y - Sum(counts, e[y]), lo, base, key, off + 1) <==> Stored(e[y], y - Sum(counts, e[y]), lo, base, key, off)
    {
      assert CellHolds(counts, NUM_KEYS, y, e[y]);
    }
  }

  /** The same cells, counted as another position of the loops. */
  lemma SameCells(counts: seq<nat>, output: seq<Bits>, writes: seq<nat>,
                  lo: int, base: int, now: int, off: int, lo': int, base': int, now': int, off': int)
    requires |counts| == NUM_KEYS && Progress(counts, output, writes, lo, base, now, off)
    requires forall k, o :: 0 <= k < NUM_KEYS && 0 <= o < counts[k] ==>
      (Stored(k, o, lo, base, now, off) <==> Stored(k, o, lo', base', now', off'))
    ensures Progress(counts, output, writes, lo', base', now', off')
  {
    ExpandedIs(counts, NUM_KEYS);
    hide Expanded, Sum;
    var e := Expanded(counts, NUM_KEYS);
    forall y | 0 <= y < |output|
      ensures Stored(e[y], y - Sum(counts, e[y]), lo', base', now', off') <==> Stored(e[y], y - Sum(counts, e[y]), lo, base, now, off)
    {
      var k := e[y];
      var o := y - Sum(counts, k);
      assert CellHolds(counts, NUM_KEYS, Sum(counts, k) + o, k);
    }
  }

  /** Sixteen lanes of one key in one round. */
  method StoreKey(counts: array<nat>, starts: array<int>, output: array<Bits>, ghost writes: seq<nat>,
                  ghost lo: nat, base: nat, key: nat)
    returns (ghost written: seq<nat>)
    requires counts.Length == starts.Length == NUM_KEYS
    requires Started(counts[..], starts[..]) && lo <= key < lo + BLOCK_KEYS && key < NUM_KEYS
    requires Progress(counts[..], output[..], writes, lo, base, key, 0)
    modifies output
    ensures Progress(counts[..], output[..], written, lo, base, key + 1, 0)
  {
    hide Progress, Started;
    written := writes;
    ghost var cs := counts[..];
    StartOf(cs, starts[..], key);
    var o := 0;
    while o < BLOCK_OFFSETS
      invariant 0 <= o <= BLOCK_OFFSETS
      invariant Progress(cs, output[..], written, lo, base, key, o)
    {
      if base + o < counts[key] {
        StoreStep(cs, output[..], written, lo, base, key, o);
        ghost var was := output[..];
        var x := starts[key] + (base + o);
        output[x] := BitsOf(key);
        assert output[..] == was[x := BitsOf(key)];
        written := written[x := 1];
      } else {
        MaskStep(cs, output[..], written, lo, base, key, o);
      }
      o := o + 1;
    }
    SameCells(cs, output[..], written, lo, base, key, BLOCK_OFFSETS, lo, base, key + 1, 0);
  }

  ghost predicate Started(counts: seq<nat>, starts: seq<int>) {
    |counts| == |starts| == NUM_KEYS && forall k :: 0 <= k < NUM_KEYS ==> starts[k] == Sum(counts, k)
  }

  lemma StartOf(counts: seq<nat>, starts: seq<int>, k: nat)
    requires Started(counts, starts) && k < NUM_KEYS
    ensures starts[k] == Sum(counts, k)
  {
  }

  /** One key block: rounds of sixteen offsets until the largest count is covered. */
  method ExpandBlock(counts: array<nat>, starts: array<int>, output: array<Bits>, ghost writes: seq<nat>, lo: nat)
    returns (ghost written: seq<nat>)
    requires counts.Length == starts.Length == NUM_KEYS
    requires Started(counts[..], starts[..]) && lo + BLOCK_KEYS <= NUM_KEYS
    requires Progress(counts[..], output[..], writes, lo, 0, lo, 0)
    modifies output
    ensures Progress(counts[..], output[..], written, lo + BLOCK_KEYS, 0, lo + BLOCK_KEYS, 0)
  {
    hide Progress, Started;
    written := writes;
    var maxCount, key := 0, lo;
    while key < lo + BLOCK_KEYS
      invariant lo <= key <= lo + BLOCK_KEYS
      invariant forall k :: lo <= k < key ==> counts[k] <= maxCount
    {
      if counts[key] > maxCount { maxCount := counts[key]; }
      key := key + 1;
    }
    ghost var cs := counts[..];
    var base := 0;
    while base < maxCount
      invariant 0 <= base
      invariant Progress(cs, output[..], written, lo, base, lo, 0)
      decreases maxCount - base
    {
      key := lo;
      while key < lo + BLOCK_KEYS
        invariant lo <= key <= lo + BLOCK_KEYS
        invariant Progress(cs, output[..], written, lo, base, key, 0)
      {
        written := StoreKey(counts, starts, output, written, lo, base, key);
        key := key + 1;
      }
      SameCells(cs, output[..], written, lo, base, key, 0, lo, base + BLOCK_OFFSETS, lo, 0);
      base := base + BLOCK_OFFSETS;
    }
    SameCells(cs, output[..], written, lo, base, lo, 0, lo + BLOCK_KEYS, 0, lo + BLOCK_KEYS, 0);
  }

  /** The expansion writes every output cell exactly once, with the value of the key the
      prefix sums assign to it. */
  method Expand(counts: array<nat>, starts: array<int>, output: array<Bits>) returns (ghost writes: seq<nat>)
    requires counts.Length == starts.Length == NUM_KEYS
    requires Started(counts[..], starts[..]) && output.Length == Sum(counts[..], NUM_KEYS)
    modifies output
    ensures |writes| == output.Length == |Expanded(counts[..], NUM_KEYS)|
    ensures forall x :: 0 <= x < output.Length ==> writes[x] == 1 && output[x] == BitsOf(Expanded(counts[..], NUM_KEYS)[x])
  {
    hide Progress, Started;
    ghost var cs := counts[..];
    ExpandedIs(cs, NUM_KEYS);
    writes := seq(output.Length, i => 0);
    StartExpanding(cs, output[..], writes);
    var lo := 0;
    while lo < NUM_KEYS
      invariant 0 <= lo <= NUM_KEYS && lo % BLOCK_KEYS == 0
      invariant Progress(cs, output[..], writes, lo, 0, lo, 0)
    {
      writes := ExpandBlock(counts, starts, output, writes, lo);
      lo := lo + BLOCK_KEYS;
    }
    EndExpanding(cs, output[..], writes);
  }

  lemma EndExpanding(counts: seq<nat>, output: seq<Bits>, writes: seq<nat>)
    requires |counts| == NUM_KEYS && Progress(counts, output, writes, NUM_KEYS, 0, NUM_KEYS, 0)
    ensures |output| == |writes| == |Expanded(counts, NUM_KEYS)|
    ensures forall x :: 0 <= x < |output| ==> writes[x] == 1 && output[x] == BitsOf(Expanded(counts, NUM_KEYS)[x])
  {
    hide Expanded, Sum;
  }

  // ----- the whole sort -----

  function Decoded(keys: seq<Bits>): (r: seq<Bits>)
    ensures |r| == |keys|
  {
    seq(|keys|, i requires 0 <= i < |keys| => BitsOf(keys[i]))
  }

  lemma DecodedKeys(row: seq<Bits>)
    ensures Decoded(Keys(row)) == row
  {
    forall i | 0 <= i < |row| ensures Decoded(Keys(row))[i] == row[i] { KeysInvert(row[i]); }
  }

  ghost predicate SortedByKey(s: seq<Bits>) {
    forall x, y :: 0 <= x <= y < |s| ==> KeyOf(s[x]) <= KeyOf(s[y])
  }

  lemma {:induction false} DecodedPerm(a: seq<Bits>, b: seq<Bits>)
    requires multiset(a) == multiset(b)
    ensures multiset(Decoded(a)) == multiset(Decoded(b))
  {
    forall k | 0 <= k < NUM_KEYS ensures Count(Decoded(a), k) == Count(Decoded(b), k) {
      KeysInvert(k);
      KeyCount(Decoded(a), k);
      KeyCount(Decoded(b), k);
      assert Keys(Decoded(a)) == a && Keys(Decoded(b)) == b;
      CountIsMultiset(a, KeyOf(k));
      CountIsMultiset(b, KeyOf(k));
    }
    SameCounts(Decoded(a), Decoded(b));
  }

  /** The patterns of a row in key order. */
  method SortRow(row: seq<Bits>) returns (output: array<Bits>)
    ensures fresh(output) && output.Length == |row|
    ensures multiset(output[..]) == multiset(row) && SortedByKey(output[..])
  {
    hide Expanded, Sum, Counted, Count;
    var counts := new nat[NUM_KEYS](i => 0);
    Histogram(row, counts);
    ghost var cs := counts[..];
    ExpandedIsSortedRow(cs, Keys(row));
    var starts := new int[NUM_KEYS];
    ExclusiveSums(counts, starts);
    output := new Bits[|row|](i => 0);
    ghost var writes := Expand(counts, starts, output);
    ghost var e := Expanded(cs, NUM_KEYS);
    assert output[..] == Decoded(e);
    DecodedPerm(e, Keys(row));
    DecodedKeys(row);
    forall x, y | 0 <= x <= y < |row| ensures KeyOf(output[x]) <= KeyOf(output[y]) {
      KeysInvert(e[x]);
      KeysInvert(e[y]);
    }
  }

  predicate AllFinite(row: seq<Bits>) { forall i :: 0 <= i < |row| ==> Finite(row[i]) }

  function Scaled(row: seq<Bits>, t: real): (r: seq<real>)
    requires t > 0.0
    ensures |r| == |row|
  {
    seq(|row|, i requires 0 <= i < |row| => Value(row[i]) as real / t)
  }

  lemma {:induction false} ScaledPerm(a: seq<Bits>, b: seq<Bits>, t: real)
    requires t > 0.0 && multiset(a) == multiset(b)
    ensures multiset(Scaled(a, t)) == multiset(Scaled(b, t))
    decreases |a|
  {
    hide Value, Scaled;
    if a == [] {
      assert |multiset(b)| == |b| && |multiset(a)| == 0;
      assert b == [];
    } else {
      var n := |a| - 1;
      assert a[n] in multiset(b);
      var i :| 0 <= i < |b| && b[i] == a[n];
      assert a[..n] + a[n + 1..] == a[..n];
      Excluding(a, n);
      Excluding(b, i);
      ScaledPerm(a[..n], b[..i] + b[i + 1..], t);
      ScaledTakes(a, n, t);
      ScaledTakes(b, i, t);
    }
  }

  lemma Excluding(s: seq<Bits>, i: nat)
    requires i < |s|
    ensures multiset(s[..i] + s[i + 1..]) == multiset(s) - multiset([s[i]])
  {
    assert s == s[..i] + [s[i]] + s[i + 1..];
    assert multiset(s) == multiset(s[..i] + s[i + 1..]) + multiset([s[i]]);
  }

  lemma ScaledTakes(s: seq<Bits>, i: nat, t: real)
    requires t > 0.0 && i < |s|
    ensures multiset(Scaled(s, t)) == multiset(Scaled(s[..i] + s[i + 1..], t)) + multiset([Value(s[i]) as real / t])
  {
    hide Value;
    var v := Value(s[i]) as real / t;
    var l, r := Scaled(s[..i], t), Scaled(s[i + 1..], t);
    assert Scaled(s, t) == l + [v] + r;
    assert Scaled(s[..i] + s[i + 1..], t) == l + r;
  }

  lemma DivideKeepsOrder(x: int, y: int, t: real)
    requires t > 0.0 && x <= y
    ensures x as real / t <= y as real / t
  {
    assert (y as real - x as real) / t >= 0.0;
  }

  /** The ascending scaled values of a finite row: a sorted permutation of every logit
      divided by the temperature. */
  method SortScaled(row: seq<Bits>, t: real) returns (values: array<real>)
    requires AllFinite(row) && t > 0.0
    ensures values.Length == |row|
    ensures multiset(values[..]) == multiset(Scaled(row, t))
    ensures forall x, y :: 0 <= x <= y < |row| ==> values[x] <= values[y]
  {
    hide Value, KeyOf, Finite;
    var sorted := SortRow(row);
    ghost var bits := sorted[..];
    AllFinitePerm(bits, row);
    values := new real[|row|](i => 0.0);
    var i := 0;
    while i < |row|
      invariant 0 <= i <= |row| && sorted[..] == bits
      invariant forall x :: 0 <= x < i ==> values[x] == Value(bits[x]) as real / t
    {
      values[i] := Value(sorted[i]) as real / t;
      i := i + 1;
    }
    assert values[..] == Scaled(bits, t);
    ScaledPerm(bits, row, t);
    forall x, y | 0 <= x <= y < |row| ensures values[x] <= values[y] {
      KeyPreservesOrder(bits[x], bits[y]);
      DivideKeepsOrder(Value(bits[x]), Value(bits[y]), t);
    }
  }

  lemma AllFinitePerm(a: seq<Bits>, b: seq<Bits>)
    requires multiset(a) == multiset(b) && AllFinite(b)
    ensures AllFinite(a)
  {
    forall i | 0 <= i < |a| ensures Finite(a[i]) {
      assert a[i] in multiset(b);
    }
  }
}
