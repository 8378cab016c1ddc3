/**
 The paged KV cache: a physical store of blocks, and block tables that map a
 sequence's logical positions to (block, slot) pairs. Writing goes through
 copy-on-write.
 */
module Paging {
  import opened Numbers
  import opened Blocks
  import opened Decoding

  datatype Store = Store(pool: Pool, mem: seq<seq<Column>>)

  /** The store has bs slots in each of its blocks. */
  ghost predicate Shaped(bs: nat, st: Store) {
    && bs > 0
    && |st.mem| == |st.pool.ref|
    && (forall b :: 0 <= b < |st.mem| ==> |st.mem[b]| == bs)
  }

  ghost predicate InRange(st: Store, table: seq<nat>) {
    forall i :: 0 <= i < |table| ==> table[i] < |st.mem|
  }

  /** The slot logical position p of a table lives in. */
  function At(bs: nat, mem: seq<seq<Column>>, table: seq<nat>, p: nat): Column
    requires bs > 0 && p / bs < |table|
    requires table[p / bs] < |mem| && p % bs < |mem[table[p / bs]]|
  {
    mem[table[p / bs]][p % bs]
  }

  /** The first n logical positions, contiguously. */
  ghost function Gather(bs: nat, st: Store, table: seq<nat>, n: nat): (view: seq<Column>)
    requires Shaped(bs, st) && InRange(st, table) && n <= |table| * bs
    ensures |view| == n
    ensures forall p {:trigger view[p]} :: 0 <= p < n ==> p / bs < |table| && view[p] == At(bs, st.mem, table, p)
  {
    forall p: nat | p < n ensures p / bs < |table| { PageBound(p, |table|, bs); }
    seq(n, p requires 0 <= p < n && p / bs < |table| => At(bs, st.mem, table, p))
  }

  /** What a table reads depends on the contents of its blocks only. */
  lemma SameBlocksSameView(bs: nat, st: Store, st': Store, table: seq<nat>, n: nat)
    requires Shaped(bs, st) && Shaped(bs, st') && InRange(st, table) && n <= |table| * bs
    requires forall i :: 0 <= i < |table| ==> table[i] < |st'.mem| && st'.mem[table[i]] == st.mem[table[i]]
    ensures InRange(st', table) && Gather(bs, st', table, n) == Gather(bs, st, table, n)
  {
    var a, b := Gather(bs, st', table, n), Gather(bs, st, table, n);
    forall p | 0 <= p < n
      ensures a[p] == b[p]
    {
      PageBound(p, |table|, bs);
      assert a[p] == At(bs, st'.mem, table, p) && b[p] == At(bs, st.mem, table, p);
    }
  }

  datatype Written = OutOfBlocks | Written(store: Store, table: seq<nat>)

  /** How many more blocks a table needs to hold `total` tokens. */
  function BlocksNeeded(bs: nat, table: seq<nat>, total: nat): nat
    requires bs > 0
  {
    var pages := CeilDiv(total, bs);
    if pages > |table| then pages - |table| else 0
  }

  function EnsureCapacity(bs: nat, st: Store, table: seq<nat>, total: nat): Written
    requires bs > 0 && FreeListOk(st.pool)
  {
    var need := BlocksNeeded(bs, table, total);
    if need > |st.pool.free| then OutOfBlocks
    else Written(st.(pool := AllocateMany(st.pool, need)), table + NextBlocks(st.pool, need))
  }

  /** Copy-on-write: the block at index i of the table, made private. */
  function Writable(st: Store, table: seq<nat>, i: nat): Written
    requires i < |table| && table[i] < |st.pool.ref| == |st.mem|
    requires forall i :: 0 <= i < |st.pool.free| ==> st.pool.free[i] < |st.pool.ref|
  {
    var b := table[i];
    if st.pool.ref[b] <= 1 then Written(st, table)
    else if st.pool.free == [] then OutOfBlocks
    else
      var spare := st.pool.free[|st.pool.free| - 1];
      Written(Store(Free(Allocate(st.pool), b), st.mem[spare := st.mem[b]]), table[i := spare])
  }

  /** Put one column into slot k of the block at index i of the table. */
  function WriteSlot(st: Store, table: seq<nat>, i: nat, k: nat, col: Column): Written
    requires i < |table| && table[i] < |st.pool.ref| == |st.mem|
    requires FreeListOk(st.pool)
    requires forall b :: 0 <= b < |st.mem| ==> k < |st.mem[b]|
  {
    var w := Writable(st, table, i);
    if w.OutOfBlocks? then w
    else
      var b := w.table[i];
      Written(w.store.(mem := w.store.mem[b := w.store.mem[b][k := col]]), w.table)
  }

  /** Put one column at a logical position. */
  function WriteAt(bs: nat, st: Store, table: seq<nat>, pos: nat, col: Column): Written
    requires Shaped(bs, st) && FreeListOk(st.pool) && InRange(st, table) && pos / bs < |table|
  {
    WriteSlot(st, table, pos / bs, pos % bs, col)
  }

  /** Every block the others hold reads as before. */
  ghost predicate Kept(st: Store, st': Store, others: multiset<nat>) {
    forall b :: b in others ==> b < |st.mem| && b < |st'.mem| && st'.mem[b] == st.mem[b]
  }

  lemma UpdateMultiset(table: seq<nat>, i: nat, b: nat)
    requires i < |table|
    ensures multiset(table[i := b]) == multiset(table) - multiset{table[i]} + multiset{b}
  {
    assert table == table[..i] + [table[i]] + table[i + 1..];
    assert table[i := b] == table[..i] + [b] + table[i + 1..];
  }

  /** A block counted once in all is at one index of one table. */
  lemma NotHeldElsewhere(table: seq<nat>, i: nat, others: multiset<nat>)
    requires i < |table| && (multiset(table) + others)[table[i]] == 1
    ensures table[i] !in others
    ensures forall j :: 0 <= j < |table| && j != i ==> table[j] != table[i]
  {
    assert table == table[..i] + [table[i]] + table[i + 1..];
    assert multiset(table) == multiset(table[..i]) + multiset{table[i]} + multiset(table[i + 1..]);
    forall j | 0 <= j < |table| && j != i
      ensures table[j] != table[i]
    {
      if j < i {
        assert table[j] == table[..i][j];
        assert table[j] in multiset(table[..i]);
      } else {
        assert table[j] == table[i + 1..][j - i - 1];
        assert table[j] in multiset(table[i + 1..]);
      }
    }
  }

  /** Copy-on-write keeps the counts and leaves the block at index i held once. */
  lemma WritableCounts(st: Store, table: seq<nat>, i: nat, others: multiset<nat>)
    requires |st.mem| == |st.pool.ref| && InRange(st, table) && i < |table|
    requires Counts(st.pool, multiset(table) + others)
    requires Writable(st, table, i).Written?
    ensures var w := Writable(st, table, i);
      && |w.store.pool.ref| == |st.pool.ref|
      && Counts(w.store.pool, multiset(w.table) + others)
      && (multiset(w.table) + others)[w.table[i]] == 1
  {
    var w, b, held := Writable(st, table, i), table[i], multiset(table) + others;
    assert b in multiset(table);
    if st.pool.ref[b] > 1 {
      var spare := w.table[i];
      AllocateCounts(st.pool, held);
      FreeCounts(Allocate(st.pool), b, held + multiset{spare});
      UpdateMultiset(table, i, spare);
      assert held + multiset{spare} - multiset{b} == multiset(w.table) + others;
    }
  }

  /** Copy-on-write keeps what every held block and every table index reads. */
  lemma WritableContents(bs: nat, st: Store, table: seq<nat>, i: nat, others: multiset<nat>)
    requires Shaped(bs, st) && InRange(st, table) && i < |table|
    requires Counts(st.pool, multiset(table) + others)
    requires Writable(st, table, i).Written?
    ensures var w := Writable(st, table, i);
      && Shaped(bs, w.store) && InRange(w.store, w.table) && |w.table| == |table| && |w.store.mem| == |st.mem|
      && w.store.mem[w.table[i]] == st.mem[table[i]]
      && (forall j :: 0 <= j < |table| && j != i ==> w.table[j] == table[j])
      && (forall b :: 0 <= b < |st.mem| && st.pool.ref[b] > 0 ==> w.store.mem[b] == st.mem[b])
  {
    if st.pool.ref[table[i]] > 1 {
      AllocateCounts(st.pool, multiset(table) + others);
    }
  }

  lemma OthersAreLive(st: Store, table: seq<nat>, others: multiset<nat>)
    requires |st.mem| == |st.pool.ref| && Counts(st.pool, multiset(table) + others)
    ensures forall b :: b in others ==> b < |st.mem| && st.pool.ref[b] > 0
  {
    forall b | b in others
      ensures b < |st.mem| && st.pool.ref[b] > 0
    {
      assert b in multiset(table) + others;
    }
  }

  /** One write keeps the shape and the counts, and changes one slot of the writer's own view. */
  lemma WriteSlotRead(bs: nat, st: Store, table: seq<nat>, i: nat, k: nat, col: Column, others: multiset<nat>)
    requires Shaped(bs, st) && InRange(st, table) && Counts(st.pool, multiset(table) + others)
    requires i < |table| && k < bs
    requires WriteSlot(st, table, i, k, col).Written?
    ensures var w := WriteSlot(st, table, i, k, col);
      && Shaped(bs, w.store) && InRange(w.store, w.table)
      && |w.table| == |table| && |w.store.mem| == |st.mem|
      && w.store.mem[w.table[i]] == st.mem[table[i]][k := col]
      && (forall j :: 0 <= j < |table| && j != i ==> w.store.mem[w.table[j]] == st.mem[table[j]])
  {
    WritableCounts(st, table, i, others);
    WritableContents(bs, st, table, i, others);
    NotHeldElsewhere(Writable(st, table, i).table, i, others);
    forall j | 0 <= j < |table|
      ensures st.pool.ref[table[j]] > 0
    {
      assert table[j] in multiset(table);
    }
  }

  /** One write changes nothing any other holder of blocks can read. */
  lemma WriteSlotIsolated(bs: nat, st: Store, table: seq<nat>, i: nat, k: nat, col: Column, others: multiset<nat>)
    requires Shaped(bs, st) && InRange(st, table) && Counts(st.pool, multiset(table) + others)
    requires i < |table| && k < bs
    requires WriteSlot(st, table, i, k, col).Written?
    ensures var w := WriteSlot(st, table, i, k, col);
      && Counts(w.store.pool, multiset(w.table) + others)
      && Kept(st, w.store, others)
  {
    WritableCounts(st, table, i, others);
    WritableContents(bs, st, table, i, others);
    NotHeldElsewhere(Writable(st, table, i).table, i, others);
    OthersAreLive(st, table, others);
  }

  lemma WriteAtIsolated(bs: nat, st: Store, table: seq<nat>, pos: nat, col: Column, others: multiset<nat>)
    requires Shaped(bs, st) && InRange(st, table) && FreeListOk(st.pool) && Counts(st.pool, multiset(table) + others)
    requires pos / bs < |table|
    requires WriteAt(bs, st, table, pos, col).Written?
    ensures var w := WriteAt(bs, st, table, pos, col);
      && Counts(w.store.pool, multiset(w.table) + others)
      && Kept(st, w.store, others)
  {
    WriteSlotIsolated(bs, st, table, pos / bs, pos % bs, col, others);
  }

  lemma SameSlot(p: nat, q: nat, bs: nat)
    requires bs > 0 && p / bs == q / bs
    ensures p % bs == q % bs <==> p == q
  {
    var i := p / bs;
    assert p == i * bs + p % bs && q == i * bs + q % bs;
  }

  /** One write, read back at one position of the writer's own table. */
  lemma WriteAtRead(bs: nat, st: Store, table: seq<nat>, pos: nat, col: Column, p: nat, others: multiset<nat>)
    requires Shaped(bs, st) && InRange(st, table) && FreeListOk(st.pool) && Counts(st.pool, multiset(table) + others)
    requires pos / bs < |table| && p / bs < |table|
    requires WriteAt(bs, st, table, pos, col).Written?
    ensures var w := WriteAt(bs, st, table, pos, col);
      && Shaped(bs, w.store) && InRange(w.store, w.table) && |w.table| == |table|
      && At(bs, w.store.mem, w.table, p) == if p == pos then col else At(bs, st.mem, table, p)
  {
    hide Counts, FreeListOk, WriteSlot;
    var i, k, j := pos / bs, pos % bs, p / bs;
    WriteSlotRead(bs, st, table, i, k, col, others);
    if j == i {
      SameSlot(p, pos, bs);
    } else {
      var w := WriteSlot(st, table, i, k, col);
      assert w.store.mem[w.table[j]] == st.mem[table[j]];
    }
  }

  /** One write changes the writer's gathered view at that position only. */
  lemma WriteAtView(bs: nat, st: Store, table: seq<nat>, pos: nat, col: Column, n: nat, others: multiset<nat>)
    requires Shaped(bs, st) && InRange(st, table) && FreeListOk(st.pool) && Counts(st.pool, multiset(table) + others)
    requires pos < n <= |table| * bs && pos / bs < |table|
    requires WriteAt(bs, st, table, pos, col).Written?
    ensures var w := WriteAt(bs, st, table, pos, col);
      && Shaped(bs, w.store) && InRange(w.store, w.table) && |w.table| == |table|
      && Gather(bs, w.store, w.table, n) == Gather(bs, st, table, n)[pos := col]
  {
    WriteAtRead(bs, st, table, pos, col, pos, others);
    hide Counts, FreeListOk, WriteAt;
    var w := WriteAt(bs, st, table, pos, col);
    var before, after := Gather(bs, st, table, n), Gather(bs, w.store, w.table, n);
    forall p | 0 <= p < n
      ensures after[p] == before[pos := col][p]
    {
      PageBound(p, |table|, bs);
      WriteAtRead(bs, st, table, pos, col, p, others);
    }
  }

  // ---- a whole write: capacity first, then every position

  lemma WriteSlotShape(bs: nat, st: Store, table: seq<nat>, i: nat, k: nat, col: Column)
    requires Shaped(bs, st) && FreeListOk(st.pool) && InRange(st, table) && i < |table| && k < bs
    ensures var w := WriteSlot(st, table, i, k, col);
      w.Written? ==>
        Shaped(bs, w.store) && FreeListOk(w.store.pool) && InRange(w.store, w.table) && |w.table| == |table|
  {
    if st.pool.ref[table[i]] > 1 && st.pool.free != [] {
      AllocateFreeList(st.pool);
      FreeFreeList(Allocate(st.pool), table[i]);
    }
  }

  lemma WriteAtShape(bs: nat, st: Store, table: seq<nat>, pos: nat, col: Column)
    requires Shaped(bs, st) && FreeListOk(st.pool) && InRange(st, table) && pos / bs < |table|
    ensures var w := WriteAt(bs, st, table, pos, col);
      w.Written? ==>
        Shaped(bs, w.store) && FreeListOk(w.store.pool) && InRange(w.store, w.table) && |w.table| == |table|
  {
    WriteSlotShape(bs, st, table, pos / bs, pos % bs, col);
  }

  /** Write cols at positions pos, pos + 1, ... of a table that already has room. */
  function WriteFrom(bs: nat, st: Store, table: seq<nat>, pos: nat, cols: seq<Column>): Written
    requires Shaped(bs, st) && FreeListOk(st.pool) && InRange(st, table)
    requires pos + |cols| <= |table| * bs
    decreases |cols|
  {
    if cols == [] then Written(st, table)
    else
      PageBound(pos, |table|, bs);
      WriteAtShape(bs, st, table, pos, cols[0]);
      var w := WriteAt(bs, st, table, pos, cols[0]);
      if w.OutOfBlocks? then w else WriteFrom(bs, w.store, w.table, pos + 1, cols[1..])
  }

  lemma EnsureCapacityShape(bs: nat, st: Store, table: seq<nat>, total: nat)
    requires Shaped(bs, st) && FreeListOk(st.pool) && InRange(st, table)
    ensures var w := EnsureCapacity(bs, st, table, total);
      w.Written? ==>
        && Shaped(bs, w.store) && FreeListOk(w.store.pool) && InRange(w.store, w.table)
        && total <= |w.table| * bs
        && w.store.mem == st.mem && table <= w.table
        && |w.table| == |table| + BlocksNeeded(bs, table, total)
  {
    var need := BlocksNeeded(bs, table, total);
    if need <= |st.pool.free| {
      AllocateManyFreeList(st.pool, need);
      MulMono(CeilDiv(total, bs), |table| + need, bs);
    }
  }

  /** SequenceKV.write for one run of positions. */
  function Write(bs: nat, st: Store, table: seq<nat>, start: nat, cols: seq<Column>): Written
    requires Shaped(bs, st) && FreeListOk(st.pool) && InRange(st, table)
  {
    if cols == [] then Written(st, table)
    else
      EnsureCapacityShape(bs, st, table, start + |cols|);
      var w := EnsureCapacity(bs, st, table, start + |cols|);
      if w.OutOfBlocks? then w else WriteFrom(bs, w.store, w.table, start, cols)
  }

  ghost function Splice(view: seq<Column>, pos: nat, cols: seq<Column>): seq<Column>
    requires pos + |cols| <= |view|
  {
    view[..pos] + cols + view[pos + |cols|..]
  }

  /** A whole write changes the writer's view at the written positions only. */
  lemma {:induction false} WriteFromView(bs: nat, st: Store, table: seq<nat>, pos: nat, cols: seq<Column>, n: nat,
                                         others: multiset<nat>)
    requires bs > 0 && Shaped(bs, st) && InRange(st, table)
    requires FreeListOk(st.pool) && Counts(st.pool, multiset(table) + others)
    requires pos + |cols| <= n <= |table| * bs
    requires WriteFrom(bs, st, table, pos, cols).Written?
    ensures var w := WriteFrom(bs, st, table, pos, cols);
      && Shaped(bs, w.store) && InRange(w.store, w.table) && |w.table| == |table|
      && Gather(bs, w.store, w.table, n) == Splice(Gather(bs, st, table, n), pos, cols)
    decreases |cols|
  {
    hide Shaped, Counts, FreeListOk, InRange, Gather, WriteAt, Splice;
    var view := Gather(bs, st, table, n);
    if cols == [] {
      SpliceNothing(view, pos);
    } else {
      PageBound(pos, |table|, bs);
      var w := WriteAt(bs, st, table, pos, cols[0]);
      WriteAtShape(bs, st, table, pos, cols[0]);
      WriteAtView(bs, st, table, pos, cols[0], n, others);
      assert Counts(w.store.pool, multiset(w.table) + others) by {
        WriteAtIsolated(bs, st, table, pos, cols[0], others);
      }
      WriteFromView(bs, w.store, w.table, pos + 1, cols[1..], n, others);
      SpliceStep(view, pos, cols);
    }
  }

  lemma SpliceNothing(view: seq<Column>, pos: nat)
    requires pos <= |view|
    ensures Splice(view, pos, []) == view
  {
  }

  lemma SpliceStep(view: seq<Column>, pos: nat, cols: seq<Column>)
    requires cols != [] && pos + |cols| <= |view|
    ensures Splice(view[pos := cols[0]], pos + 1, cols[1..]) == Splice(view, pos, cols)
  {
  }

  lemma KeptTrans(a: Store, b: Store, c: Store, others: multiset<nat>)
    requires Kept(a, b, others) && Kept(b, c, others)
    ensures Kept(a, c, others)
  {
  }

  lemma {:induction false} WriteFromIsolated(bs: nat, st: Store, table: seq<nat>, pos: nat, cols: seq<Column>,
                                             others: multiset<nat>)
    requires bs > 0 && Shaped(bs, st) && InRange(st, table)
    requires FreeListOk(st.pool) && Counts(st.pool, multiset(table) + others)
    requires pos + |cols| <= |table| * bs
    requires WriteFrom(bs, st, table, pos, cols).Written?
    ensures var w := WriteFrom(bs, st, table, pos, cols);
      && Counts(w.store.pool, multiset(w.table) + others)
      && Kept(st, w.store, others)
    decreases |cols|
  {
    if cols == [] {
      OthersAreLive(st, table, others);
    } else {
      hide Shaped, Counts, FreeListOk, Kept, InRange, WriteAt;
      PageBound(pos, |table|, bs);
      var w := WriteAt(bs, st, table, pos, cols[0]);
      WriteAtShape(bs, st, table, pos, cols[0]);
      WriteAtIsolated(bs, st, table, pos, cols[0], others);
      WriteFromIsolated(bs, w.store, w.table, pos + 1, cols[1..], others);
      KeptTrans(st, w.store, WriteFrom(bs, st, table, pos, cols).store, others);
    }
  }

  /** The blocks from index `from` on are referenced by this table alone. */
  ghost predicate PrivateFrom(p: Pool, table: seq<nat>, from: nat) {
    forall i :: from <= i < |table| ==> table[i] < |p.ref| && p.ref[table[i]] == 1
  }

  /** Writing into private blocks never copies: neither the table nor the pool moves. */
  lemma {:induction false} WriteFromPrivate(bs: nat, st: Store, table: seq<nat>, pos: nat, cols: seq<Column>, from: nat)
    requires Shaped(bs, st) && InRange(st, table) && FreeListOk(st.pool)
    requires from * bs <= pos && pos + |cols| <= |table| * bs
    requires PrivateFrom(st.pool, table, from)
    ensures var w := WriteFrom(bs, st, table, pos, cols);
      w.Written? && w.table == table && w.store.pool == st.pool
    decreases |cols|
  {
    if cols != [] {
      PageBound(pos, |table|, bs);
      PageAtLeast(pos, from, bs);
      WriteAtShape(bs, st, table, pos, cols[0]);
      WriteFromPrivate(bs, WriteAt(bs, st, table, pos, cols[0]).store, table, pos + 1, cols[1..], from);
    }
  }

  lemma GatherGrown(bs: nat, st: Store, table: seq<nat>, pool': Pool, more: seq<nat>, n: nat)
    requires Shaped(bs, st) && InRange(st, table) && n <= |table| * bs
    requires Shaped(bs, st.(pool := pool')) && InRange(st.(pool := pool'), table + more)
    ensures n <= |table + more| * bs
    ensures Gather(bs, st.(pool := pool'), table + more, n) == Gather(bs, st, table, n)
  {
    MulMono(|table|, |table + more|, bs);
    forall p | 0 <= p < n
      ensures Gather(bs, st.(pool := pool'), table + more, n)[p] == Gather(bs, st, table, n)[p]
    {
      PageBound(p, |table|, bs);
      assert (table + more)[p / bs] == table[p / bs];
    }
  }

  lemma GatherPrefix(bs: nat, st: Store, table: seq<nat>, n: nat, n': nat)
    requires Shaped(bs, st) && InRange(st, table) && n <= n' <= |table| * bs
    ensures Gather(bs, st, table, n')[..n] == Gather(bs, st, table, n)
  {
  }

  lemma EnsureCapacityCounts(bs: nat, st: Store, table: seq<nat>, total: nat, others: multiset<nat>)
    requires Shaped(bs, st) && FreeListOk(st.pool) && InRange(st, table)
    requires Counts(st.pool, multiset(table) + others)
    requires BlocksNeeded(bs, table, total) <= |st.pool.free|
    ensures var w := EnsureCapacity(bs, st, table, total);
      Counts(w.store.pool, multiset(w.table) + others)
  {
    var need := BlocksNeeded(bs, table, total);
    var more := NextBlocks(st.pool, need);
    AllocateManyCounts(st.pool, need, multiset(table) + others);
    hide Counts;
    assert multiset(table + more) + others == multiset(table) + others + multiset(more);
  }

  /**
   Write isolation: the writer reads its old prefix followed by what it wrote,
   whatever was shared; nobody else's blocks change; every reference stays counted.
   */
  lemma WriteIsolated(bs: nat, st: Store, table: seq<nat>, start: nat, cols: seq<Column>, others: multiset<nat>)
    requires bs > 0 && Shaped(bs, st) && FreeListOk(st.pool) && InRange(st, table)
    requires Counts(st.pool, multiset(table) + others)
    requires start <= |table| * bs && cols != []
    requires Write(bs, st, table, start, cols).Written?
    ensures var w := Write(bs, st, table, start, cols);
      && Shaped(bs, w.store) && InRange(w.store, w.table)
      && Counts(w.store.pool, multiset(w.table) + others)
      && Kept(st, w.store, others)
      && start + |cols| <= |w.table| * bs
      && Gather(bs, w.store, w.table, start + |cols|) == Gather(bs, st, table, start) + cols
  {
    hide Shaped, Counts, FreeListOk, InRange, Gather, WriteFrom, Kept;
    var n := start + |cols|;
    var g := EnsureCapacity(bs, st, table, n);
    EnsureCapacityShape(bs, st, table, n);
    EnsureCapacityCounts(bs, st, table, n, others);
    WriteFromView(bs, g.store, g.table, start, cols, n, others);
    WriteFromIsolated(bs, g.store, g.table, start, cols, others);
    assert g.table == table + g.table[|table|..];
    GatherGrown(bs, st, table, g.store.pool, g.table[|table|..], start);
    GatherPrefix(bs, g.store, g.table, start, n);
    SameMemKept(st, g.store, Write(bs, st, table, start, cols).store, others);
  }

  lemma SameMemKept(a: Store, b: Store, c: Store, others: multiset<nat>)
    requires a.mem == b.mem && Kept(b, c, others)
    ensures Kept(a, c, others)
  {
  }

  /** A write into private blocks takes exactly the blocks planned for it and copies nothing. */
  lemma WritePrivate(bs: nat, st: Store, table: seq<nat>, start: nat, cols: seq<Column>, from: nat, held: multiset<nat>)
    requires Shaped(bs, st) && FreeListOk(st.pool) && InRange(st, table) && Counts(st.pool, held)
    requires from * bs <= start <= |table| * bs && cols != []
    requires PrivateFrom(st.pool, table, from)
    requires BlocksNeeded(bs, table, start + |cols|) <= |st.pool.free|
    ensures var w, need := Write(bs, st, table, start, cols), BlocksNeeded(bs, table, start + |cols|);
      && w.Written?
      && w.table == table + NextBlocks(st.pool, need)
      && w.store.pool == AllocateMany(st.pool, need)
      && PrivateFrom(w.store.pool, w.table, from)
  {
    var n := start + |cols|;
    var g := EnsureCapacity(bs, st, table, n);
    EnsureCapacityShape(bs, st, table, n);
    GrownPrivate(bs, st, table, n, from, held);
    hide Shaped, Counts, FreeListOk, InRange, PrivateFrom, BlocksNeeded, WriteFrom;
    WriteFromPrivate(bs, g.store, g.table, start, cols, from);
  }

  lemma GrownPrivate(bs: nat, st: Store, table: seq<nat>, total: nat, from: nat, held: multiset<nat>)
    requires bs > 0 && FreeListOk(st.pool) && Counts(st.pool, held)
    requires PrivateFrom(st.pool, table, from) && BlocksNeeded(bs, table, total) <= |st.pool.free|
    ensures var w := EnsureCapacity(bs, st, table, total);
      PrivateFrom(w.store.pool, w.table, from)
  {
    var need := BlocksNeeded(bs, table, total);
    var more, q := NextBlocks(st.pool, need), AllocateMany(st.pool, need);
    AllocateManyFreeList(st.pool, need);
    AllocateManyCounts(st.pool, need, held);
    NextBlocksAreFree(st.pool, need, held);
    DistinctCountOne(more);
    forall i | from <= i < |table + more|
      ensures (table + more)[i] < |q.ref| && q.ref[(table + more)[i]] == 1
    {
      var b := (table + more)[i];
      if i < |table| {
        assert b == table[i] && held[b] == 1;
        assert b in held;
        assert b !in more;
      } else {
        assert b == more[i - |table|];
        assert b in more;
      }
      assert (held + multiset(more))[b] == 1;
      assert q.ref[b] == (held + multiset(more))[b];
    }
  }
}
