/** The block-based Fibonacci memo cache of the Rust base library.
    Fibonacci values are kept in blocks of ten: value `n` lives in block `n / 10`
    at offset `n % 10`. A watermark records the highest index computed so far. */
module FibonacciMemo {
  import opened Json

  const BLOCK_SIZE: nat := 10
  /** The largest index whose Fibonacci number fits in a u64. */
  const MAX_FIB_INDEX: nat := 93
  const U64_MAX: nat := 0xFFFF_FFFF_FFFF_FFFF

  /** The block that holds value `n`. */
  function BlockIndex(n: nat): (b: nat)
    ensures b * BLOCK_SIZE <= n < b * BLOCK_SIZE + BLOCK_SIZE
  {
    n / BLOCK_SIZE
  }

  /** The position of value `n` inside its block. */
  function BlockOffset(n: nat): (off: nat)
    ensures off < BLOCK_SIZE
    ensures n == BlockIndex(n) * BLOCK_SIZE + off
  {
    n % BLOCK_SIZE
  }

  /** Two indices with the same block and offset are the same index. */
  lemma BlockPositionInjective(m: nat, n: nat)
    requires BlockIndex(m) == BlockIndex(n) && BlockOffset(m) == BlockOffset(n)
    ensures m == n
  {
  }

  /** Block positions are ordered like the indices: by block, then by offset. */
  lemma BlockOrder(m: nat, n: nat)
    ensures m <= n ==> BlockIndex(m) <= BlockIndex(n)
    ensures m > n ==> BlockIndex(m) >= BlockIndex(n)
    ensures m <= n && BlockIndex(m) == BlockIndex(n) ==> BlockOffset(m) <= BlockOffset(n)
    ensures m > n && BlockIndex(m) == BlockIndex(n) ==> BlockOffset(m) > BlockOffset(n)
  {
  }

  /** The Fibonacci numbers, with Fib(0) = 0 and Fib(1) = 1. */
  ghost function Fib(n: nat): nat
  {
    if n <= 1 then n else Fib(n - 1) + Fib(n - 2)
  }

  lemma {:induction false} FibMonotone(i: nat, j: nat)
    requires i <= j
    ensures Fib(i) <= Fib(j)
    decreases j - i
  {
    if i < j {
      FibMonotone(i, j - 1);
    }
  }

  // The table of Fibonacci numbers, five chunks of unfoldings.
  lemma FibTableUpTo20()
    ensures Fib(19) == 4181 && Fib(20) == 6765
  {
    assert Fib(2) == 1;
    assert Fib(3) == 2;
    assert Fib(4) == 3;
    assert Fib(5) == 5;
    assert Fib(6) == 8;
    assert Fib(7) == 13;
    assert Fib(8) == 21;
    assert Fib(9) == 34;
    assert Fib(10) == 55;
    assert Fib(11) == 89;
    assert Fib(12) == 144;
    assert Fib(13) == 233;
    assert Fib(14) == 377;
    assert Fib(15) == 610;
    assert Fib(16) == 987;
    assert Fib(17) == 1597;
    assert Fib(18) == 2584;
    assert Fib(19) == 4181;
    assert Fib(20) == 6765;
  }

  lemma FibTableUpTo40()
    ensures Fib(39) == 63245986 && Fib(40) == 102334155
  {
    FibTableUpTo20();
    assert Fib(21) == 10946;
    assert Fib(22) == 17711;
    assert Fib(23) == 28657;
    assert Fib(24) == 46368;
    assert Fib(25) == 75025;
    assert Fib(26) == 121393;
    assert Fib(27) == 196418;
    assert Fib(28) == 317811;
    assert Fib(29) == 514229;
    assert Fib(30) == 832040;
    assert Fib(31) == 1346269;
    assert Fib(32) == 2178309;
    assert Fib(33) == 3524578;
    assert Fib(34) == 5702887;
    assert Fib(35) == 9227465;
    assert Fib(36) == 14930352;
    assert Fib(37) == 24157817;
    assert Fib(38) == 39088169;
    assert Fib(39) == 63245986;
    assert Fib(40) == 102334155;
  }

  lemma FibTableUpTo60()
    ensures Fib(59) == 956722026041 && Fib(60) == 1548008755920
  {
    FibTableUpTo40();
    assert Fib(41) == 165580141;
    assert Fib(42) == 267914296;
    assert Fib(43) == 433494437;
    assert Fib(44) == 701408733;
    assert Fib(45) == 1134903170;
    assert Fib(46) == 1836311903;
    assert Fib(47) == 2971215073;
    assert Fib(48) == 4807526976;
    assert Fib(49) == 7778742049;
    assert Fib(50) == 12586269025;
    assert Fib(51) == 20365011074;
    assert Fib(52) == 32951280099;
    assert Fib(53) == 53316291173;
    assert Fib(54) == 86267571272;
    assert Fib(55) == 139583862445;
    assert Fib(56) == 225851433717;
    assert Fib(57) == 365435296162;
    assert Fib(58) == 591286729879;
    assert Fib(59) == 956722026041;
    assert Fib(60) == 1548008755920;
  }

  lemma FibTableUpTo80()
    ensures Fib(79) == 14472334024676221 && Fib(80) == 23416728348467685
  {
    FibTableUpTo60();
    assert Fib(61) == 2504730781961;
    assert Fib(62) == 4052739537881;
    assert Fib(63) == 6557470319842;
    assert Fib(64) == 10610209857723;
    assert Fib(65) == 17167680177565;
    assert Fib(66) == 27777890035288;
    assert Fib(67) == 44945570212853;
    assert Fib(68) == 72723460248141;
    assert Fib(69) == 117669030460994;
    assert Fib(70) == 190392490709135;
    assert Fib(71) == 308061521170129;
    assert Fib(72) == 498454011879264;
    assert Fib(73) == 806515533049393;
    assert Fib(74) == 1304969544928657;
    assert Fib(75) == 2111485077978050;
    assert Fib(76) == 3416454622906707;
    assert Fib(77) == 5527939700884757;
    assert Fib(78) == 8944394323791464;
    assert Fib(79) == 14472334024676221;
    assert Fib(80) == 23416728348467685;
  }

  lemma FibTableUpTo94()
    ensures Fib(93) == 12200160415121876738 && Fib(94) == 19740274219868223167
  {
    FibTableUpTo80();
    assert Fib(81) == 37889062373143906;
    assert Fib(82) == 61305790721611591;
    assert Fib(83) == 99194853094755497;
    assert Fib(84) == 160500643816367088;
    assert Fib(85) == 259695496911122585;
    assert Fib(86) == 420196140727489673;
    assert Fib(87) == 679891637638612258;
    assert Fib(88) == 1100087778366101931;
    assert Fib(89) == 1779979416004714189;
    assert Fib(90) == 2880067194370816120;
    assert Fib(91) == 4660046610375530309;
    assert Fib(92) == 7540113804746346429;
    assert Fib(93) == 12200160415121876738;
    assert Fib(94) == 19740274219868223167;
  }

  /** The values the unit test asserts, and the last values around the u64 limit. */
  lemma FibTable()
    ensures Fib(0) == 0 && Fib(1) == 1 && Fib(10) == 55 && Fib(17) == 1597
    ensures Fib(93) == 12200160415121876738
    ensures Fib(94) == 19740274219868223167
  {
    FibTableUpTo20();
    assert Fib(10) == 55 && Fib(17) == 1597 by {
      assert Fib(2) == 1; assert Fib(3) == 2; assert Fib(4) == 3; assert Fib(5) == 5;
      assert Fib(6) == 8; assert Fib(7) == 13; assert Fib(8) == 21; assert Fib(9) == 34;
      assert Fib(10) == 55; assert Fib(11) == 89; assert Fib(12) == 144; assert Fib(13) == 233;
      assert Fib(14) == 377; assert Fib(15) == 610; assert Fib(16) == 987; assert Fib(17) == 1597;
    }
    FibTableUpTo94();
  }

  /** Every Fibonacci number up to index 93 fits in a u64, so the u64 additions never overflow. */
  lemma FibFitsU64(n: nat)
    requires n <= MAX_FIB_INDEX
    ensures Fib(n) <= U64_MAX
  {
    FibTable();
    FibMonotone(n, MAX_FIB_INDEX);
  }

  /** ... and 93 is the largest such index. */
  lemma FibBeyondU64()
    ensures Fib(MAX_FIB_INDEX + 1) > U64_MAX
  {
    FibTable();
  }

  /** The cache storage: block index to the values of that block. */
  type Blocks = map<nat, seq<nat>>

  /** `get_value`: the stored value for index `n`, if its block holds that offset. */
  function Lookup(blocks: Blocks, n: nat): Option<nat>
  {
    var b := BlockIndex(n);
    var off := BlockOffset(n);
    if b in blocks && off < |blocks[b]| then Some(blocks[b][off]) else None
  }

  /** A block extended with zeros until it has a slot at offset `off`. */
  function Padded(block: seq<nat>, off: nat): (r: seq<nat>)
    ensures |r| == if off < |block| then |block| else off + 1
    ensures r[..|block|] == block
    ensures forall j :: |block| <= j < |r| ==> r[j] == 0
  {
    if off < |block| then block else block + seq(off + 1 - |block|, _ => 0)
  }

  /** The storage after `store_value(n, v)`. */
  function StoreAt(blocks: Blocks, n: nat, v: nat): Blocks
  {
    var b := BlockIndex(n);
    var block := if b in blocks then blocks[b] else [];
    blocks[b := Padded(block, BlockOffset(n))[BlockOffset(n) := v]]
  }

  /** After storing `v` at `n`: `n` holds `v`, every position that held a value keeps it,
      and the only new positions are the zero padding of `n`'s block below `n`. */
  lemma StoreAtLookup(blocks: Blocks, n: nat, v: nat, p: nat)
    ensures Lookup(StoreAt(blocks, n, v), p) ==
      if p == n then Some(v)
      else if Lookup(blocks, p).Some? then Lookup(blocks, p)
      else if BlockIndex(p) == BlockIndex(n) && BlockOffset(p) < BlockOffset(n) then Some(0)
      else None
  {
    var b := BlockIndex(n);
    var block := if b in blocks then blocks[b] else [];
    var nb := Padded(block, BlockOffset(n))[BlockOffset(n) := v];
    if p != n && BlockIndex(p) == b {
      assert BlockOffset(p) != BlockOffset(n);
      if BlockOffset(p) < |block| {
        assert nb[BlockOffset(p)] == block[BlockOffset(p)];
      }
    }
  }

  /** The length of block `b` once every index up to `k` is stored contiguously. */
  function BlockLength(k: nat, b: nat): nat
  {
    if b < BlockIndex(k) then BLOCK_SIZE else BlockOffset(k) + 1
  }

  /** The storage holds exactly the indices 0..k, each with its Fibonacci number:
      blocks 0..k/10, all full except the last, which ends at offset k % 10. */
  ghost predicate LayoutOf(blocks: Blocks, k: nat)
  {
    && (forall b: nat :: b in blocks <==> b <= BlockIndex(k))
    && (forall b: nat :: b in blocks ==> |blocks[b]| == BlockLength(k, b))
    && (forall b: nat, j: nat :: b in blocks && j < |blocks[b]| ==> blocks[b][j] == Fib(b * BLOCK_SIZE + j))
  }

  /** Under the layout, exactly the indices up to `k` are present, with their Fibonacci numbers. */
  lemma LayoutLookup(blocks: Blocks, k: nat, n: nat)
    requires LayoutOf(blocks, k)
    ensures Lookup(blocks, n) == if n <= k then Some(Fib(n)) else None
  {
    BlockOrder(n, k);
    if n <= k {
      LayoutSlot(blocks, k, n);
      LayoutValue(blocks, k, n);
    } else {
      LayoutLacks(blocks, k, n);
    }
  }

  /** A stored slot holds the Fibonacci number of its index. */
  lemma LayoutValue(blocks: Blocks, k: nat, n: nat)
    requires LayoutOf(blocks, k)
    requires BlockIndex(n) in blocks && BlockOffset(n) < |blocks[BlockIndex(n)]|
    ensures blocks[BlockIndex(n)][BlockOffset(n)] == Fib(n)
  {
    var b: nat := BlockIndex(n);
    var off: nat := BlockOffset(n);
    var m := b * BLOCK_SIZE + off;
    assert m == n;
    assert blocks[b][off] == Fib(m);
  }

  /** The slot of an index up to `k` exists. */
  lemma LayoutSlot(blocks: Blocks, k: nat, n: nat)
    requires LayoutOf(blocks, k)
    requires BlockIndex(n) <= BlockIndex(k)
    requires BlockIndex(n) == BlockIndex(k) ==> BlockOffset(n) <= BlockOffset(k)
    ensures BlockIndex(n) in blocks && BlockOffset(n) < |blocks[BlockIndex(n)]|
  {
    var b: nat := BlockIndex(n);
    assert b in blocks;
    assert |blocks[b]| == BlockLength(k, b);
  }

  /** An index beyond `k` is not stored. */
  lemma LayoutLacks(blocks: Blocks, k: nat, n: nat)
    requires LayoutOf(blocks, k) && n > k
    requires BlockIndex(n) >= BlockIndex(k)
    requires BlockIndex(n) == BlockIndex(k) ==> BlockOffset(n) > BlockOffset(k)
    ensures Lookup(blocks, n) == None
  {
    var b: nat := BlockIndex(n);
    if b in blocks {
      assert b == BlockIndex(k);
      assert BlockOffset(n) >= |blocks[b]|;
    }
  }

  lemma LayoutLookupIf(blocks: Blocks, k: nat, n: nat)
    ensures LayoutOf(blocks, k) ==> Lookup(blocks, n) == if n <= k then Some(Fib(n)) else None
  {
    if LayoutOf(blocks, k) {
      LayoutLookup(blocks, k, n);
    }
  }

  /** The initial storage holds 0 and 1. */
  lemma InitialLayout()
    ensures LayoutOf(map[0 := [0, 1]], 1)
  {
    assert BlockIndex(1) == 0 && BlockOffset(1) == 1;
  }

  /** Storing Fib(k + 1) at the next index extends the layout by one position. */
  lemma LayoutExtend(blocks: Blocks, k: nat)
    requires LayoutOf(blocks, k)
    ensures LayoutOf(StoreAt(blocks, k + 1, Fib(k + 1)), k + 1)
  {
    var n := k + 1;
    var b := BlockIndex(n);
    var nb := StoreAt(blocks, n, Fib(n));
    if BlockOffset(n) == 0 {
      assert b == BlockIndex(k) + 1;
      assert b !in blocks;
      assert nb[b] == [Fib(n)];
    } else {
      assert b == BlockIndex(k);
      assert BlockOffset(n) == BlockOffset(k) + 1;
      assert |blocks[b]| == BlockOffset(n);
      assert nb[b] == blocks[b] + [Fib(n)];
    }
    forall c, j | c in nb && 0 <= j < |nb[c]|
      ensures nb[c][j] == Fib(c * BLOCK_SIZE + j)
    {
      if c == b && j == BlockOffset(n) {
        assert c * BLOCK_SIZE + j == n;
      }
    }
  }

  /** Every value stored under the layout is its Fibonacci number. */
  ghost predicate Sound(blocks: Blocks)
  {
    forall m: nat :: Lookup(blocks, m).Some? ==> Lookup(blocks, m).value == Fib(m)
  }

  lemma LayoutSound(blocks: Blocks, k: nat)
    requires LayoutOf(blocks, k)
    ensures Sound(blocks)
  {
    forall m: nat | Lookup(blocks, m).Some? ensures Lookup(blocks, m).value == Fib(m) {
      LayoutLookup(blocks, k, m);
    }
  }

  /** The indices below `c`. */
  function Below(c: nat): (r: set<nat>)
    ensures forall b: nat :: b in r <==> b < c
  {
    if c == 0 then {} else Below(c - 1) + {c - 1}
  }

  lemma {:induction false} BelowSize(c: nat)
    ensures |Below(c)| == c
  {
    if c > 0 {
      BelowSize(c - 1);
    }
  }

  /** The total number of values in the blocks named by `keys`. */
  ghost function LengthSum(blocks: Blocks, keys: set<nat>): nat
    requires keys <= blocks.Keys
    decreases |keys|
  {
    if keys == {} then 0
    else
      var b :| b in keys;
      |blocks[b]| + LengthSum(blocks, keys - {b})
  }

  /** The total does not depend on which block is counted first. */
  lemma {:induction false} LengthSumRemove(blocks: Blocks, keys: set<nat>, b: nat)
    requires keys <= blocks.Keys && b in keys
    ensures LengthSum(blocks, keys) == |blocks[b]| + LengthSum(blocks, keys - {b})
    decreases |keys|
  {
    var a :| a in keys && LengthSum(blocks, keys) == |blocks[a]| + LengthSum(blocks, keys - {a});
    if a != b {
      LengthSumRemove(blocks, keys - {a}, b);
      LengthSumRemove(blocks, keys - {b}, a);
      assert keys - {a} - {b} == keys - {b} - {a};
    }
  }

  /** Under the layout, blocks 0..c-1 (all full) hold 10 * c values. */
  lemma {:induction false} LayoutFullBlocks(blocks: Blocks, k: nat, c: nat)
    requires LayoutOf(blocks, k) && c <= BlockIndex(k)
    ensures Below(c) <= blocks.Keys
    ensures LengthSum(blocks, Below(c)) == c * BLOCK_SIZE
  {
    if c > 0 {
      LayoutFullBlocks(blocks, k, c - 1);
      assert Below(c) - {c - 1} == Below(c - 1);
      LengthSumRemove(blocks, Below(c), c - 1);
    }
  }

  /** What `get_statistics` reports for a cache that holds exactly 0..k:
      k / 10 + 1 blocks and k + 1 values. */
  lemma LayoutTotals(blocks: Blocks, k: nat)
    requires LayoutOf(blocks, k)
    ensures |blocks| == BlockIndex(k) + 1
    ensures LengthSum(blocks, blocks.Keys) == k + 1
  {
    LayoutBlockCount(blocks, k);
    LayoutValueCount(blocks, k);
  }

  lemma LayoutBlockCount(blocks: Blocks, k: nat)
    requires LayoutOf(blocks, k)
    ensures |blocks| == BlockIndex(k) + 1
  {
    LayoutKeys(blocks, k);
    BelowSize(BlockIndex(k) + 1);
    assert |blocks| == |blocks.Keys|;
  }

  lemma LayoutValueCount(blocks: Blocks, k: nat)
    requires LayoutOf(blocks, k)
    ensures LengthSum(blocks, blocks.Keys) == k + 1
  {
    var last := BlockIndex(k);
    LayoutKeys(blocks, k);
    LayoutFullBlocks(blocks, k, last);
    assert Below(last + 1) - {last} == Below(last);
    LengthSumRemove(blocks, Below(last + 1), last);
    assert |blocks[last]| == BlockOffset(k) + 1;
  }

  lemma LayoutKeys(blocks: Blocks, k: nat)
    requires LayoutOf(blocks, k)
    ensures blocks.Keys == Below(BlockIndex(k) + 1)
  {
  }

  lemma LayoutTotalsIf(blocks: Blocks, k: nat)
    ensures LayoutOf(blocks, k) ==> |blocks| == BlockIndex(k) + 1 && LengthSum(blocks, blocks.Keys) == k + 1
  {
    if LayoutOf(blocks, k) {
      LayoutTotals(blocks, k);
    }
  }

  datatype FibonacciCacheStats = FibonacciCacheStats(blocksLoaded: nat, highestComputed: nat, totalValues: nat)

  function Max(a: nat, b: nat): nat
  {
    if a < b then b else a
  }

  class FibonacciCache {
    var blocks: Blocks
    var highestComputed: nat

    /** The cache invariant: exactly the indices 0..highestComputed are stored, each with
        its Fibonacci number, and the watermark stays within the u64 range. */
    ghost predicate Valid()
      reads this
    {
      1 <= highestComputed <= MAX_FIB_INDEX && LayoutOf(blocks, highestComputed)
    }

    /** `new`: block 0 holds the base cases 0 and 1. */
    constructor ()
      ensures Valid()
      ensures highestComputed == 1 && blocks == map[0 := [0, 1]]
    {
      blocks := map[0 := [0, 1]];
      highestComputed := 1;
      InitialLayout();
    }

    /** `get_value`: under the invariant, index `n` is present iff `n <= highestComputed`,
        and then holds Fib(n). */
    function GetValue(n: nat): (r: Option<nat>)
      reads this
      ensures Valid() ==> r == if n <= highestComputed then Some(Fib(n)) else None
    {
      LayoutLookupIf(blocks, highestComputed, n);
      Lookup(blocks, n)
    }

    /** `store_value`: pads the block with zeros up to the offset, then writes the value. */
    method StoreValue(n: nat, value: nat)
      modifies this
      ensures blocks == StoreAt(old(blocks), n, value)
      ensures highestComputed == old(highestComputed)
    {
      var b := BlockIndex(n);
      var off := BlockOffset(n);
      var block := if b in blocks then blocks[b] else [];
      ghost var original := block;
      while |block| <= off
        invariant |original| <= |block| <= Max(|original|, off + 1)
        invariant block == original + seq(|block| - |original|, _ => 0)
        decreases off - |block|
      {
        block := block + [0];
      }
      assert block == Padded(original, off);
      block := block[off := value];
      blocks := blocks[b := block];
    }

    /** `fibonacci_recursive`: answers from the cache when it can, recursing otherwise.
        It reads the cache and never writes it. */
    method FibonacciRecursive(n: nat) returns (r: nat)
      requires Sound(blocks) && n <= MAX_FIB_INDEX
      ensures r == Fib(n) && r <= U64_MAX
      decreases n
    {
      FibFitsU64(n);
      if n <= 1 {
        return n;
      }
      var cached := Lookup(blocks, n);
      if cached.Some? {
        return cached.value;
      }
      var f1: nat;
      var c1 := Lookup(blocks, n - 1);
      if c1.Some? {
        f1 := c1.value;
      } else {
        f1 := FibonacciRecursive(n - 1);
      }
      var f2: nat;
      var c2 := Lookup(blocks, n - 2);
      if c2.Some? {
        f2 := c2.value;
      } else {
        f2 := FibonacciRecursive(n - 2);
      }
      r := f1 + f2;
    }

    /** One step of the fill loop of `compute_up_to`: compute Fib(i) and store it. */
    method FillNext(i: nat)
      requires 2 <= i <= MAX_FIB_INDEX && LayoutOf(blocks, i - 1)
      modifies this
      ensures LayoutOf(blocks, i)
      ensures highestComputed == old(highestComputed)
    {
      LayoutSound(blocks, i - 1);
      var fibVal := FibonacciRecursive(i);
      ghost var before := blocks;
      StoreValue(i, fibVal);
      LayoutExtend(before, i - 1);
    }

    /** `compute_up_to`: fills every index from the watermark up to `n`, then raises
        the watermark to at least `n`. */
    method ComputeUpTo(n: nat) returns (r: nat)
      requires Valid() && n <= MAX_FIB_INDEX
      modifies this
      ensures Valid()
      ensures r == Fib(n)
      ensures highestComputed == Max(old(highestComputed), n)
      ensures forall m: nat :: m <= old(highestComputed) ==> GetValue(m) == old(GetValue(m))
    {
      ghost var before := blocks;
      var i := highestComputed + 1;
      while i <= n
        invariant highestComputed + 1 <= i <= Max(highestComputed + 1, n + 1)
        invariant highestComputed == old(highestComputed)
        invariant LayoutOf(blocks, i - 1)
      {
        FillNext(i);
        i := i + 1;
      }
      assert i - 1 == Max(highestComputed, n);
      forall m: nat | m <= highestComputed
        ensures Lookup(blocks, m) == Lookup(before, m)
      {
        LayoutLookup(blocks, i - 1, m);
        LayoutLookup(before, highestComputed, m);
      }
      highestComputed := Max(highestComputed, n);
      LayoutLookup(blocks, highestComputed, n);
      r := Lookup(blocks, n).value;
    }

    /** `compute`: Fib(n), from the base cases, the cache, or by filling the cache up to `n`. */
    method Compute(n: nat) returns (r: nat)
      requires Valid() && n <= MAX_FIB_INDEX
      modifies this
      ensures Valid()
      ensures r == Fib(n) && r <= U64_MAX
      ensures highestComputed == Max(old(highestComputed), n)
      ensures forall m: nat :: m <= old(highestComputed) ==> GetValue(m) == old(GetValue(m))
    {
      FibFitsU64(n);
      if n <= 1 {
        return n;
      }
      var b := BlockIndex(n);
      var off := BlockOffset(n);
      if b in blocks && off < |blocks[b]| {
        LayoutLookup(blocks, highestComputed, n);
        return blocks[b][off];
      }
      r := ComputeUpTo(n);
    }

    /** `get_statistics`: the number of blocks, the watermark, and the number of stored values. */
    method GetStatistics() returns (stats: FibonacciCacheStats)
      ensures stats.blocksLoaded == |blocks| && stats.highestComputed == highestComputed
      ensures stats.totalValues == LengthSum(blocks, blocks.Keys)
      ensures Valid() ==> stats.blocksLoaded == BlockIndex(highestComputed) + 1
      ensures Valid() ==> stats.totalValues == highestComputed + 1
    {
      var remaining := blocks.Keys;
      var total := 0;
      while remaining != {}
        invariant remaining <= blocks.Keys
        invariant total + LengthSum(blocks, remaining) == LengthSum(blocks, blocks.Keys)
        decreases |remaining|
      {
        var b :| b in remaining;
        LengthSumRemove(blocks, remaining, b);
        total := total + |blocks[b]|;
        remaining := remaining - {b};
      }
      LayoutTotalsIf(blocks, highestComputed);
      stats := FibonacciCacheStats(|blocks|, highestComputed, total);
    }
  }

  /** The unit test: one shared cache answers 0, 1, 55 and 1597 for 0, 1, 10 and 17. */
  method FibonacciTest() returns (f0: nat, f1: nat, f10: nat, f17: nat)
    ensures f0 == 0 && f1 == 1 && f10 == 55 && f17 == 1597
  {
    FibTable();
    var cache := new FibonacciCache();
    f0 := cache.Compute(0);
    f1 := cache.Compute(1);
    f10 := cache.Compute(10);
    f17 := cache.Compute(17);
  }
}
