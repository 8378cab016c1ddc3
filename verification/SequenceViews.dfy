/**
 The paged KV cache as objects: one pool of blocks, and per sequence a block
 table that is grown, written through copy-on-write, shared and released.
 */
module SequenceViews {
  import opened Numbers
  import opened Options
  import opened Blocks
  import opened Allocation
  import opened Paging
  import opened Decoding

  // ---- a write, block by block

  /** Overwrite the slots from k on. */
  function Patch(slots: seq<Column>, k: nat, cols: seq<Column>): (r: seq<Column>)
    requires k + |cols| <= |slots|
    ensures |r| == |slots|
  {
    slots[..k] + cols + slots[k + |cols|..]
  }

  lemma PatchStep(slots: seq<Column>, k: nat, cols: seq<Column>)
    requires cols != [] && k + |cols| <= |slots|
    ensures Patch(slots[k := cols[0]], k + 1, cols[1..]) == Patch(slots, k, cols)
  {
  }

  /** Put a run of columns that stays inside one block into it, copying the block first if it is shared. */
  function WriteRun(bs: nat, st: Store, table: seq<nat>, pos: nat, cols: seq<Column>): Written
    requires Shaped(bs, st) && FreeListOk(st.pool) && InRange(st, table)
    requires pos / bs < |table| && pos % bs + |cols| <= bs
  {
    var w := Writable(st, table, pos / bs);
    if w.OutOfBlocks? then w
    else
      assert w.table[pos / bs] < |w.store.mem| && |w.store.mem[w.table[pos / bs]]| == bs;
      var b := w.table[pos / bs];
      Written(w.store.(mem := w.store.mem[b := Patch(w.store.mem[b], pos % bs, cols)]), w.table)
  }

  /** After copy-on-write the block is private, so nothing more is copied. */
  lemma WritableTwice(bs: nat, st: Store, table: seq<nat>, i: nat, slots: seq<Column>)
    requires Shaped(bs, st) && FreeListOk(st.pool) && InRange(st, table) && i < |table|
    requires Writable(st, table, i).Written? && |slots| == bs
    ensures var w := Writable(st, table, i);
      && Shaped(bs, w.store) && FreeListOk(w.store.pool) && InRange(w.store, w.table)
      && |w.table| == |table| && |w.store.mem| == |st.mem|
      && var st' := w.store.(mem := w.store.mem[w.table[i] := slots]);
         Shaped(bs, st') && InRange(st', w.table) && Writable(st', w.table, i) == Written(st', w.table)
  {
    var b := table[i];
    if st.pool.ref[b] > 1 {
      var spare := st.pool.free[|st.pool.free| - 1];
      assert spare in st.pool.free;
      AllocateFreeList(st.pool);
      FreeFreeList(Blocks.Allocate(st.pool), b);
    }
  }

  lemma SamePage(pos: nat, bs: nat)
    requires bs > 0 && pos % bs + 1 < bs
    ensures (pos + 1) / bs == pos / bs && (pos + 1) % bs == pos % bs + 1
  {
    assert pos == pos / bs * bs + pos % bs;
    PositionUnique(pos + 1, pos / bs, pos % bs + 1, bs);
  }

  lemma RunFits(pos: nat, n: nat, pages: nat, bs: nat)
    requires bs > 0 && pos / bs < pages && pos % bs + n <= bs
    ensures pos + n <= pages * bs
  {
    assert pos == pos / bs * bs + pos % bs;
    MulMono(pos / bs + 1, pages, bs);
    assert (pos / bs + 1) * bs == pos / bs * bs + bs;
  }

  /** The first column of a run written alone, then the rest. */
  lemma RunStep(bs: nat, st: Store, table: seq<nat>, pos: nat, cols: seq<Column>)
    requires Shaped(bs, st) && FreeListOk(st.pool) && InRange(st, table)
    requires pos / bs < |table| && pos % bs + |cols| <= bs && |cols| > 1
    ensures var w := WriteAt(bs, st, table, pos, cols[0]);
      if w.OutOfBlocks? then WriteRun(bs, st, table, pos, cols).OutOfBlocks?
      else
        && Shaped(bs, w.store) && FreeListOk(w.store.pool) && InRange(w.store, w.table)
        && (pos + 1) / bs == pos / bs < |w.table| && (pos + 1) % bs == pos % bs + 1
        && WriteRun(bs, w.store, w.table, pos + 1, cols[1..]) == WriteRun(bs, st, table, pos, cols)
  {
    SamePage(pos, bs);
    var i, k := pos / bs, pos % bs;
    var v := Writable(st, table, i);
    if v.Written? {
      WritableTwice(bs, st, table, i, seq(bs, _ => cols[0]));
      var slots := v.store.mem[v.table[i]];
      WritableTwice(bs, st, table, i, slots[k := cols[0]]);
      PatchStep(slots, k, cols);
      hide Writable, FreeListOk, Patch;
      var w := WriteAt(bs, st, table, pos, cols[0]);
      assert w.store.mem[w.table[i]] == slots[k := cols[0]];
      assert w.store.mem[v.table[i] := Patch(slots, k, cols)] == v.store.mem[v.table[i] := Patch(slots, k, cols)];
    }
  }

  /** Writing a run at once is writing its columns one by one. */
  lemma {:induction false} RunIsColumns(bs: nat, st: Store, table: seq<nat>, pos: nat, cols: seq<Column>)
    requires Shaped(bs, st) && FreeListOk(st.pool) && InRange(st, table)
    requires pos / bs < |table| && pos % bs + |cols| <= bs && cols != []
    ensures pos + |cols| <= |table| * bs
    ensures WriteFrom(bs, st, table, pos, cols) == WriteRun(bs, st, table, pos, cols)
    decreases |cols|
  {
    RunFits(pos, |cols|, |table|, bs);
    if |cols| == 1 {
      OneColumn(bs, st, table, pos, cols);
    } else {
      RunStep(bs, st, table, pos, cols);
      hide WriteRun, Shaped, FreeListOk, InRange, WriteAt;
      var w := WriteAt(bs, st, table, pos, cols[0]);
      if w.Written? {
        RunIsColumns(bs, w.store, w.table, pos + 1, cols[1..]);
      } else {
        NoSpare(bs, st, table, pos, cols);
      }
    }
  }

  lemma NoSpare(bs: nat, st: Store, table: seq<nat>, pos: nat, cols: seq<Column>)
    requires Shaped(bs, st) && FreeListOk(st.pool) && InRange(st, table)
    requires pos / bs < |table| && pos % bs + |cols| <= bs && cols != [] && pos + |cols| <= |table| * bs
    requires WriteAt(bs, st, table, pos, cols[0]).OutOfBlocks?
    ensures WriteFrom(bs, st, table, pos, cols) == OutOfBlocks
  {
  }

  lemma OneColumn(bs: nat, st: Store, table: seq<nat>, pos: nat, cols: seq<Column>)
    requires Shaped(bs, st) && FreeListOk(st.pool) && InRange(st, table)
    requires pos / bs < |table| && |cols| == 1 && pos + |cols| <= |table| * bs && pos % bs + 1 <= bs
    ensures WriteFrom(bs, st, table, pos, cols) == WriteRun(bs, st, table, pos, cols)
  {
    var w := WriteAt(bs, st, table, pos, cols[0]);
    if w.Written? {
      WriteAtShape(bs, st, table, pos, cols[0]);
      assert cols[1..] == [];
      assert WriteFrom(bs, w.store, w.table, pos + 1, cols[1..]) == w;
      var v := Writable(st, table, pos / bs);
      WritableTwice(bs, st, table, pos / bs, seq(bs, _ => cols[0]));
      var slots := v.store.mem[v.table[pos / bs]];
      assert slots[pos % bs := cols[0]] == Patch(slots, pos % bs, cols);
    }
  }

  lemma {:induction false} WriteFromSplit(bs: nat, st: Store, table: seq<nat>, pos: nat, a: seq<Column>, b: seq<Column>)
    requires Shaped(bs, st) && FreeListOk(st.pool) && InRange(st, table)
    requires pos + |a| + |b| <= |table| * bs
    ensures var w := WriteFrom(bs, st, table, pos, a);
      if w.OutOfBlocks? then WriteFrom(bs, st, table, pos, a + b) == OutOfBlocks
      else
        && Shaped(bs, w.store) && FreeListOk(w.store.pool) && InRange(w.store, w.table) && |w.table| == |table|
        && WriteFrom(bs, st, table, pos, a + b) == WriteFrom(bs, w.store, w.table, pos + |a|, b)
    decreases |a|
  {
    hide Shaped, FreeListOk, InRange, WriteAt;
    if a == [] {
      assert a + b == b;
    } else {
      PageBound(pos, |table|, bs);
      WriteAtShape(bs, st, table, pos, a[0]);
      var w := WriteAt(bs, st, table, pos, a[0]);
      assert (a + b)[0] == a[0] && (a + b)[1..] == a[1..] + b;
      if w.Written? {
        WriteFromSplit(bs, w.store, w.table, pos + 1, a[1..], b);
      }
    }
  }

  /** One turn of the write loop: the first `take` columns go into one block. */
  lemma WriteTurn(bs: nat, st: Store, table: seq<nat>, pos: nat, cols: seq<Column>, take: nat)
    requires Shaped(bs, st) && FreeListOk(st.pool) && InRange(st, table)
    requires pos + |cols| <= |table| * bs && 0 < take <= |cols| && pos % bs + take <= bs
    ensures pos / bs < |table|
    ensures var w := WriteRun(bs, st, table, pos, cols[..take]);
      if w.OutOfBlocks? then WriteFrom(bs, st, table, pos, cols) == OutOfBlocks
      else
        && Shaped(bs, w.store) && FreeListOk(w.store.pool) && InRange(w.store, w.table) && |w.table| == |table|
        && WriteFrom(bs, st, table, pos, cols) == WriteFrom(bs, w.store, w.table, pos + take, cols[take..])
  {
    hide *;
    ShapedSize(bs, st);
    PageBound(pos, |table|, bs);
    assert cols == cols[..take] + cols[take..];
    RunIsColumns(bs, st, table, pos, cols[..take]);
    WriteFromSplit(bs, st, table, pos, cols[..take], cols[take..]);
  }

  lemma TurnFits(pos: nat, pages: nat, bs: nat, take: nat)
    requires bs > 0 && pos + take <= pages * bs && take > 0
    ensures pos / bs < pages && pos % bs < bs
  {
    PageBound(pos, pages, bs);
  }

  lemma WriteIs(bs: nat, st: Store, table: seq<nat>, start: nat, cols: seq<Column>)
    requires bs > 0 && Shaped(bs, st) && FreeListOk(st.pool) && InRange(st, table)
    ensures cols == [] ==> Paging.Write(bs, st, table, start, cols) == Written(st, table)
    ensures cols != [] ==>
      var w := Paging.EnsureCapacity(bs, st, table, start + |cols|);
      if w.OutOfBlocks? then Paging.Write(bs, st, table, start, cols) == OutOfBlocks
      else
        && Shaped(bs, w.store) && FreeListOk(w.store.pool) && InRange(w.store, w.table)
          && start + |cols| <= |w.table| * bs
        && Paging.Write(bs, st, table, start, cols) == WriteFrom(bs, w.store, w.table, start, cols)
  {
    hide Paging.EnsureCapacity, WriteFrom;
    EnsureCapacityShape(bs, st, table, start + |cols|);
  }

  lemma WroteAll(bs: nat, st: Store, table: seq<nat>, pos: nat, cols: seq<Column>)
    requires Shaped(bs, st) && FreeListOk(st.pool) && InRange(st, table) && cols == [] && pos <= |table| * bs
    ensures WriteFrom(bs, st, table, pos, cols) == Written(st, table)
  {
  }

  lemma ShapedSize(bs: nat, st: Store)
    requires Shaped(bs, st)
    ensures bs > 0
  {
  }

  // ---- a gather, block by block

  /** The slots of the blocks of a table, one block after another. */
  function Flatten(mem: seq<seq<Column>>, table: seq<nat>): seq<Column>
    requires forall i :: 0 <= i < |table| ==> table[i] < |mem|
  {
    if table == [] then [] else Flatten(mem, table[..|table| - 1]) + mem[table[|table| - 1]]
  }

  /** Blocks laid end to end: position p is slot p % bs of block p / bs. */
  lemma {:induction false} FlattenAt(bs: nat, st: Store, table: seq<nat>, p: nat)
    requires Shaped(bs, st) && InRange(st, table)
    ensures |Flatten(st.mem, table)| == |table| * bs
    ensures p < |table| * bs ==> p / bs < |table| && Flatten(st.mem, table)[p] == At(bs, st.mem, table, p)
    decreases |table|
  {
    if table != [] {
      var n := |table| - 1;
      var front := table[..n];
      assert |table| * bs == n * bs + bs;
      FlattenAt(bs, st, front, p);
      if n * bs <= p < |table| * bs {
        PositionUnique(p, n, p - n * bs, bs);
      } else if p < n * bs {
        PageBound(p, n, bs);
      }
    }
  }

  predicate IsBlank(bs: nat, blank: Column, slots: seq<Column>) {
    |slots| == bs && forall k :: 0 <= k < bs ==> slots[k] == blank
  }

  class PagedKVCache {
    const blockSize: nat
    const allocator: BlockAllocator
    const mem: array<seq<Column>>     // k_pool and v_pool: the slots of every block

    ghost predicate Valid()
      reads this, allocator, mem
    {
      allocator.Valid() && Slotted()
    }

    /** Every block has its slots. */
    ghost predicate Slotted()
      reads mem
    {
      && blockSize > 0 && mem.Length == allocator.numBlocks
      && forall b :: 0 <= b < mem.Length ==> |mem[b]| == blockSize
    }

    function Value(): Store
      reads this, allocator, mem
    {
      Store(allocator.Value(), mem[..])
    }

    constructor (blockSize: nat, numBlocks: nat, blank: Column)
      requires blockSize > 0
      ensures Valid() && fresh(allocator) && fresh(mem)
      ensures this.blockSize == blockSize && allocator.numBlocks == numBlocks
      ensures allocator.Value() == Initial(numBlocks) && allocator.cowCopies == 0
      ensures mem.Length == numBlocks && forall b :: 0 <= b < numBlocks ==> IsBlank(blockSize, blank, mem[b])
    {
      this.blockSize := blockSize;
      allocator := new BlockAllocator(numBlocks);
      mem := new seq<Column>[numBlocks](_ => seq(blockSize, _ => blank));
    }

    method NewSequence(ghost owner: nat) returns (s: SequenceKV)
      ensures fresh(s) && s.cache == this && s.owner == owner
      ensures s.blockTable == [] && s.length == 0 && s.numCachedPrefix == 0
    {
      s := new SequenceKV(this, owner);
    }
  }

  class SequenceKV {
    const cache: PagedKVCache
    var blockTable: seq<nat>
    var length: nat
    var numCachedPrefix: nat
    ghost const owner: nat            // the request this view belongs to

    constructor (cache: PagedKVCache, ghost owner: nat)
      ensures this.cache == cache && this.owner == owner && blockTable == [] && length == 0 && numCachedPrefix == 0
    {
      this.cache, this.owner := cache, owner;
      blockTable, length, numCachedPrefix := [], 0, 0;
    }

    ghost predicate Valid()
      reads this, cache, cache.allocator, cache.mem
    {
      cache.Valid() && InRange(cache.Value(), blockTable)
    }

    function Capacity(): nat
      reads this
    {
      |blockTable| * cache.blockSize
    }

    function BlocksNeeded(total: nat): nat
      requires cache.blockSize > 0
      reads this
    {
      Paging.BlocksNeeded(cache.blockSize, blockTable, total)
    }

    /** Grow the block table until `total` tokens fit; false is OutOfBlocks, and then nothing changed. */
    method EnsureCapacity(total: nat) returns (ok: bool)
      requires Valid()
      modifies this, cache.allocator
      ensures Valid() && length == old(length) && numCachedPrefix == old(numCachedPrefix)
      ensures cache.allocator.cowCopies == old(cache.allocator.cowCopies)
      ensures var w := Paging.EnsureCapacity(cache.blockSize, old(cache.Value()), old(blockTable), total);
        if ok then w == Written(cache.Value(), blockTable)
        else w.OutOfBlocks? && unchanged(this) && unchanged(cache.allocator)
      ensures ok ==>
        |cache.allocator.free| + Paging.BlocksNeeded(cache.blockSize, old(blockTable), total) ==
          |old(cache.allocator.free)|
    {
      EnsureCapacityShape(cache.blockSize, cache.Value(), blockTable, total);
      var need := BlocksNeeded(total);
      if need > 0 {
        var more := cache.allocator.AllocateMany(need);
        if more.None? {
          return false;
        }
        blockTable := blockTable + more.value;
      }
      return true;
    }

    /** The block to write at an index of the table, copied first when another sequence shares it. */
    method WritableBlock(i: nat) returns (b: Option<nat>)
      requires Valid() && i < |blockTable|
      modifies this, cache.allocator, cache.mem
      ensures length == old(length) && numCachedPrefix == old(numCachedPrefix)
      ensures var w := Writable(old(cache.Value()), old(blockTable), i);
        if b.Some?
        then Valid() && w == Written(cache.Value(), blockTable) && b.value == blockTable[i]
        else w.OutOfBlocks? && Valid() && unchanged(this) && unchanged(cache.allocator) && unchanged(cache.mem)
      ensures cache.allocator.cowCopies + |cache.allocator.free| ==
        old(cache.allocator.cowCopies) + |old(cache.allocator.free)|
    {
      var block := blockTable[i];
      assert cache.Value().mem[block] == cache.mem[block];
      if Writable(cache.Value(), blockTable, i).Written? {
        WritableTwice(cache.blockSize, cache.Value(), blockTable, i, cache.mem[block]);
      }
      var r := cache.allocator.PrepareForWrite(block);
      if r.None? {
        return None;
      }
      var (target, copied) := r.value;
      if copied {
        cache.mem[target] := cache.mem[block];
        blockTable := blockTable[i := target];
      }
      return Some(target);
    }

    lemma ValidParts()
      requires Valid()
      ensures cache.blockSize > 0 && Shaped(cache.blockSize, cache.Value())
      ensures FreeListOk(cache.Value().pool) && InRange(cache.Value(), blockTable)
    {
    }

    /** Write a run of columns that stays inside one block; false is OutOfBlocks. */
    method WriteBlock(pos: nat, cols: seq<Column>) returns (ok: bool)
      requires Valid() && pos / cache.blockSize < |blockTable| && pos % cache.blockSize + |cols| <= cache.blockSize
      modifies this, cache.allocator, cache.mem
      ensures length == old(length) && numCachedPrefix == old(numCachedPrefix)
      ensures var w := WriteRun(cache.blockSize, old(cache.Value()), old(blockTable), pos, cols);
        if ok then w == Written(cache.Value(), blockTable) && Valid() else w.OutOfBlocks? && Valid()
      ensures cache.allocator.cowCopies + |cache.allocator.free| ==
        old(cache.allocator.cowCopies) + |old(cache.allocator.free)|
    {
      var block := WritableBlock(pos / cache.blockSize);
      if block.None? {
        return false;
      }
      cache.mem[block.value] := Patch(cache.mem[block.value], pos % cache.blockSize, cols);
      return true;
    }

    /**
     Write columns for the tokens at start, start + 1, ..., block by block; false is
     OutOfBlocks. Beyond the blocks the capacity needs, every block taken is one copy.
     */
    method Write(start: nat, cols: seq<Column>) returns (ok: bool)
      requires Valid()
      modifies this, cache.allocator, cache.mem
      ensures Valid() && length == old(length) && numCachedPrefix == old(numCachedPrefix)
      ensures var w := Paging.Write(cache.blockSize, old(cache.Value()), old(blockTable), start, cols);
        if ok then w == Written(cache.Value(), blockTable) else w.OutOfBlocks?
      ensures ok && cols != [] ==>
        cache.allocator.cowCopies + |cache.allocator.free| +
          Paging.BlocksNeeded(cache.blockSize, old(blockTable), start + |cols|)
          == old(cache.allocator.cowCopies) + |old(cache.allocator.free)|
      ensures cols == [] ==> cache.allocator.cowCopies == old(cache.allocator.cowCopies)
    {
      hide *;
      ValidParts();
      WriteIs(cache.blockSize, cache.Value(), blockTable, start, cols);
      var n := |cols|;
      if n == 0 {
        return true;
      }
      EnsureCapacityShape(cache.blockSize, cache.Value(), blockTable, start + n);
      ok := EnsureCapacity(start + n);
      if !ok {
        return false;
      }
      ValidParts();
      var bs := cache.blockSize;
      ghost var all := WriteFrom(bs, cache.Value(), blockTable, start, cols);
      var written := 0;
      while written < n
        invariant written <= n && Valid() && length == old(length) && numCachedPrefix == old(numCachedPrefix)
        invariant Shaped(bs, cache.Value()) && FreeListOk(cache.Value().pool) && InRange(cache.Value(), blockTable)
        invariant start + n <= |blockTable| * bs
        invariant cache.allocator.cowCopies + |cache.allocator.free| +
          Paging.BlocksNeeded(bs, old(blockTable), start + n)
          == old(cache.allocator.cowCopies) + |old(cache.allocator.free)|
        invariant all == WriteFrom(bs, cache.Value(), blockTable, start + written, cols[written..])
      {
        var pos := start + written;
        var slot := pos % bs;
        var take := if bs - slot < n - written then bs - slot else n - written;
        TurnFits(pos, |blockTable|, bs, take);
        WriteTurn(bs, cache.Value(), blockTable, pos, cols[written..], take);
        assert cols[written..][..take] == cols[written..written + take];
        assert cols[written..][take..] == cols[written + take..];
        ok := WriteBlock(pos, cols[written..written + take]);
        if !ok {
          return false;
        }
        ValidParts();
        written := written + take;
      }
      WroteAll(bs, cache.Value(), blockTable, start + n, cols[n..]);
    }

    /** The written columns, contiguously: whole blocks laid end to end, cut at `length`. */
    method Gather() returns (view: seq<Column>)
      requires Valid()
      ensures var n := if length <= Capacity() then length else Capacity();
        view == Paging.Gather(cache.blockSize, cache.Value(), blockTable, n)
    {
      if length == 0 || blockTable == [] {
        return [];
      }
      var pages := CeilDiv(length, cache.blockSize);
      var k := if pages <= |blockTable| then pages else |blockTable|;
      var flat := [];
      for i := 0 to k
        invariant flat == Flatten(cache.mem[..], blockTable[..i])
      {
        assert blockTable[..i + 1][..i] == blockTable[..i];
        flat := flat + cache.mem[blockTable[i]];
      }
      CeilDivFits(length, cache.blockSize, |blockTable|);
      FlattenedView(cache.blockSize, cache.Value(), blockTable, k, if length <= Capacity() then length else Capacity());
      return if length <= |flat| then flat[..length] else flat;
    }

    /** Share cached blocks: one more reference each, no data moved. */
    method AdoptPrefix(blocks: seq<nat>, numTokens: nat) returns (ok: bool)
      requires cache.allocator.Valid()
      modifies this, cache.allocator
      ensures cache.allocator.Valid() && cache.allocator.cowCopies == old(cache.allocator.cowCopies)
      ensures ok <==> AllIncref(old(cache.allocator.Value()), blocks)
      ensures if ok
        then cache.allocator.Value() == IncrefMany(old(cache.allocator.Value()), blocks)
          && blockTable == old(blockTable) + blocks && length == numTokens == numCachedPrefix
        else unchanged(this)
    {
      ok := cache.allocator.IncrefMany(blocks);
      if ok {
        blockTable := blockTable + blocks;
        length := numTokens;
        numCachedPrefix := numTokens;
      }
    }

    /** Give every block of the table back. */
    method Release() returns (ok: bool)
      requires cache.allocator.Valid()
      modifies this, cache.allocator
      ensures cache.allocator.Valid() && cache.allocator.cowCopies == old(cache.allocator.cowCopies)
      ensures ok <==> AllLive(old(cache.allocator.Value()), old(blockTable))
      ensures if ok
        then cache.allocator.Value() == FreeMany(old(cache.allocator.Value()), old(blockTable))
          && blockTable == [] && length == 0 && numCachedPrefix == old(numCachedPrefix)
        else unchanged(this)
    {
      ok := cache.allocator.FreeMany(blockTable);
      if ok {
        blockTable := [];
        length := 0;
      }
    }

    /** The blocks that are completely filled. */
    function FullBlocks(): (blocks: seq<nat>)
      requires cache.blockSize > 0
      reads this
    {
      var k := length / cache.blockSize;
      if k <= |blockTable| then blockTable[..k] else blockTable
    }
  }

  lemma SameSlotOf(bs: nat, st: Store, table: seq<nat>, k: nat, n: nat, p: nat)
    requires Shaped(bs, st) && InRange(st, table) && n <= |table| * bs && k <= |table| && p < n <= k * bs
    ensures p < |Flatten(st.mem, table[..k])|
    ensures Flatten(st.mem, table[..k])[p] == Paging.Gather(bs, st, table, n)[p]
  {
    hide *;
    ShapedSize(bs, st);
    PageBound(p, k, bs);
    InRangePrefix(st, table, k);
    FlattenAt(bs, st, table[..k], p);
    AtPrefix(bs, st, table, k, p);
  }

  lemma InRangePrefix(st: Store, table: seq<nat>, k: nat)
    requires InRange(st, table) && k <= |table|
    ensures InRange(st, table[..k])
  {
  }

  lemma AtPrefix(bs: nat, st: Store, table: seq<nat>, k: nat, p: nat)
    requires Shaped(bs, st) && InRange(st, table) && k <= |table| && p / bs < k
    ensures At(bs, st.mem, table[..k], p) == At(bs, st.mem, table, p)
  {
  }

  /** The first k blocks end to end, cut at n, are the first n positions. */
  lemma FlattenedView(bs: nat, st: Store, table: seq<nat>, k: nat, n: nat)
    requires Shaped(bs, st) && InRange(st, table) && n <= |table| * bs && k <= |table| && n <= k * bs
    ensures |Flatten(st.mem, table[..k])| == k * bs
    ensures Flatten(st.mem, table[..k])[..n] == Paging.Gather(bs, st, table, n)
  {
    FlattenAt(bs, st, table[..k], 0);
    var flat, view := Flatten(st.mem, table[..k]), Paging.Gather(bs, st, table, n);
    hide Flatten;
    forall p | 0 <= p < n
      ensures flat[p] == view[p]
    {
      SameSlotOf(bs, st, table, k, n, p);
    }
    assert flat[..n] == view;
  }
}
