/**
 Writes into blocks that others may share. Copy-on-write can be done for all blocks
 first: a write is what it is on blocks made private, and it succeeds exactly when the
 blocks to add and the blocks to copy are free.
 */
module SharedWrites {
  import opened Numbers
  import opened Blocks
  import opened Decoding
  import opened Paging
  import opened PrivateWrites

  // ---- making blocks private

  /** The blocks from index i of the table on, each copied if it is shared. */
  ghost function Prepare(st: Store, table: seq<nat>, i: nat): Written
    decreases |table| - i
  {
    if i >= |table| then Written(st, table)
    else if !CanCopy(st, table, i) then OutOfBlocks
    else
      var w := Writable(st, table, i);
      if w.OutOfBlocks? || |w.table| != |table| then OutOfBlocks else Prepare(w.store, w.table, i + 1)
  }

  ghost predicate CanCopy(st: Store, table: seq<nat>, i: nat) {
    && i < |table| && table[i] < |st.pool.ref| == |st.mem|
    && forall k :: 0 <= k < |st.pool.free| ==> st.pool.free[k] < |st.pool.ref|
  }

  /** What a sequence's writes rely on. */
  ghost predicate Ready(bs: nat, st: Store, table: seq<nat>, others: multiset<nat>) {
    && Shaped(bs, st) && FreeListOk(st.pool) && InRange(st, table) && Counts(st.pool, multiset(table) + others)
  }

  lemma OneCopy(bs: nat, st: Store, table: seq<nat>, i: nat, others: multiset<nat>)
    requires Ready(bs, st, table, others) && i < |table|
    ensures CanCopy(st, table, i)
    ensures Writable(st, table, i).OutOfBlocks? <==> st.pool.ref[table[i]] > 1 && st.pool.free == []
    ensures var w := Writable(st, table, i);
      w.Written? ==>
        && Ready(bs, w.store, w.table, others) && |w.table| == |table| && |w.store.mem| == |st.mem|
        && w.store.pool.ref[w.table[i]] == 1 && w.table[i] !in others
        && (forall j :: 0 <= j < |table| && j != i ==> w.table[j] == table[j] && table[j] != w.table[i])
        && w.store.mem[w.table[i]] == st.mem[table[i]]
  {
    if Writable(st, table, i).Written? {
      WritableCounts(st, table, i, others);
      WritableContents(bs, st, table, i, others);
      NotHeldElsewhere(Writable(st, table, i).table, i, others);
      CountsFreeList(Writable(st, table, i).store.pool, multiset(Writable(st, table, i).table) + others);
    }
  }

  /** A block of one's own stays as it is while others are copied. */
  lemma CopyLeaves(bs: nat, st: Store, table: seq<nat>, i: nat, others: multiset<nat>, b: nat)
    requires Ready(bs, st, table, others) && i < |table| && Writable(st, table, i).Written?
    requires b < |st.mem| && st.pool.ref[b] > 0 && b != table[i]
    ensures CanCopy(st, table, i)
    ensures var w := Writable(st, table, i);
      |w.store.pool.ref| == |st.pool.ref| && |w.store.mem| == |st.mem| && w.store.pool.ref[b] == st.pool.ref[b]
        && w.store.mem[b] == st.mem[b] && (w.table[i] != table[i] ==> w.table[i] != b)
  {
  }

  /** What making the rest of a table private leaves. */
  lemma {:induction false} Prepared(bs: nat, st: Store, table: seq<nat>, i: nat, others: multiset<nat>)
    requires Ready(bs, st, table, others) && Prepare(st, table, i).Written?
    ensures var w := Prepare(st, table, i);
      && Ready(bs, w.store, w.table, others) && |w.table| == |table| && |w.store.mem| == |st.mem|
      && (forall j :: 0 <= j < i && j < |table| ==> w.table[j] == table[j])
      && PrivateFrom(w.store.pool, w.table, i)
    decreases |table| - i
  {
    hide *;
    PrepareStep(st, table, i);
    if i < |table| {
      OneCopy(bs, st, table, i, others);
      var q := Writable(st, table, i);
      Prepared(bs, q.store, q.table, i + 1, others);
      var w := Prepare(st, table, i);
      ReadySize(bs, q.store, q.table, others);
      StaysPrivate(bs, q.store, q.table, i + 1, others, q.table[i]);
      assert w.table[i] == q.table[i];
      PrivateCons(w.store.pool, w.table, i);
    } else {
      NothingLeft(st.pool, table, i);
    }
  }

  lemma PrepareStep(st: Store, table: seq<nat>, i: nat)
    ensures i >= |table| ==> Prepare(st, table, i) == Written(st, table)
    ensures Prepare(st, table, i).Written? && i < |table| ==>
      CanCopy(st, table, i) && Writable(st, table, i).Written?
    ensures CanCopy(st, table, i) ==>
      var q := Writable(st, table, i);
      && (q.Written? && |q.table| == |table| ==> Prepare(st, table, i) == Prepare(q.store, q.table, i + 1))
      && (q.OutOfBlocks? ==> Prepare(st, table, i).OutOfBlocks?)
  {
    hide Writable;
  }

  lemma ReadySize(bs: nat, st: Store, table: seq<nat>, others: multiset<nat>)
    requires Ready(bs, st, table, others)
    ensures bs > 0 && |st.mem| == |st.pool.ref| && FreeListOk(st.pool)
    ensures forall j :: 0 <= j < |table| ==> table[j] < |st.mem| && st.pool.ref[table[j]] > 0
  {
    forall j | 0 <= j < |table|
      ensures st.pool.ref[table[j]] > 0
    {
      assert table[j] in multiset(table);
    }
  }

  lemma PrivateCons(p: Pool, table: seq<nat>, i: nat)
    requires i < |table| && PrivateFrom(p, table, i + 1) && table[i] < |p.ref| && p.ref[table[i]] == 1
    ensures PrivateFrom(p, table, i)
  {
  }

  lemma NothingLeft(p: Pool, table: seq<nat>, i: nat)
    requires i >= |table|
    ensures PrivateFrom(p, table, i)
  {
  }

  /** A live block outside the rest of the table keeps its count and its contents. */
  lemma {:induction false} StaysPrivate(bs: nat, st: Store, table: seq<nat>, i: nat, others: multiset<nat>, b: nat)
    requires Ready(bs, st, table, others) && Prepare(st, table, i).Written?
    requires b < |st.mem| && b < |st.pool.ref| && st.pool.ref[b] > 0 && forall j :: i <= j < |table| ==> table[j] != b
    ensures var w := Prepare(st, table, i);
      && |w.store.mem| == |st.mem| == |w.store.pool.ref| && w.store.mem[b] == st.mem[b]
      && w.store.pool.ref[b] == st.pool.ref[b]
    decreases |table| - i
  {
    if i < |table| {
      OneCopy(bs, st, table, i, others);
      CopyLeaves(bs, st, table, i, others, b);
      var q := Writable(st, table, i);
      hide Ready;
      StaysPrivate(bs, q.store, q.table, i + 1, others, b);
    }
  }

  /** A private block's contents can be replaced before or after. */
  lemma {:induction false} PrepareFrame(bs: nat, st: Store, table: seq<nat>, i: nat, others: multiset<nat>, b: nat,
                                        x: seq<Column>)
    requires Ready(bs, st, table, others) && |x| == bs
    requires b < |st.mem| && b < |st.pool.ref| && st.pool.ref[b] > 0 && forall j :: i <= j < |table| ==> table[j] != b
    ensures var w, w' := Prepare(st, table, i), Prepare(st.(mem := st.mem[b := x]), table, i);
      if w.OutOfBlocks? then w'.OutOfBlocks?
      else |w.store.mem| == |st.mem| && w' == Written(w.store.(mem := w.store.mem[b := x]), w.table)
    decreases |table| - i
  {
    hide *;
    var st' := st.(mem := st.mem[b := x]);
    ReadySize(bs, st, table, others);
    ReadyFrame(bs, st, table, others, b, x);
    PrepareStep(st, table, i);
    PrepareStep(st', table, i);
    if i < |table| {
      OneCopy(bs, st, table, i, others);
      OneCopy(bs, st', table, i, others);
      LiveNotFree(st.pool, b);
      CopyFrame(st, table, i, b, x);
      var q := Writable(st, table, i);
      if q.Written? {
        CopyLeaves(bs, st, table, i, others, b);
        PrepareFrame(bs, q.store, q.table, i + 1, others, b, x);
      }
    }
  }

  lemma ReadyFrame(bs: nat, st: Store, table: seq<nat>, others: multiset<nat>, b: nat, x: seq<Column>)
    requires Ready(bs, st, table, others) && b < |st.mem| && |x| == bs
    ensures Ready(bs, st.(mem := st.mem[b := x]), table, others)
  {
  }

  lemma LiveNotFree(p: Pool, b: nat)
    requires FreeListOk(p) && b < |p.ref| && p.ref[b] > 0
    ensures b !in p.free
  {
  }

  lemma CopyFrame(st: Store, table: seq<nat>, i: nat, b: nat, x: seq<Column>)
    requires CanCopy(st, table, i) && b < |st.mem| && table[i] != b && (b !in st.pool.free)
    ensures CanCopy(st.(mem := st.mem[b := x]), table, i)
    ensures var w, w' := Writable(st, table, i), Writable(st.(mem := st.mem[b := x]), table, i);
      if w.OutOfBlocks? then w'.OutOfBlocks?
      else |w.store.mem| == |st.mem| && w' == Written(w.store.(mem := w.store.mem[b := x]), w.table)
  {
    if st.pool.ref[table[i]] > 1 && st.pool.free != [] {
      var spare, mem := st.pool.free[|st.pool.free| - 1], st.mem;
      assert spare in st.pool.free;
      assert mem[b := x][spare := mem[table[i]]] == mem[spare := mem[table[i]]][b := x];
    }
  }

  // ---- a write on blocks made private first

  lemma WriteFromStep(bs: nat, st: Store, table: seq<nat>, pos: nat, cols: seq<Column>)
    requires Shaped(bs, st) && FreeListOk(st.pool) && InRange(st, table) && pos + |cols| <= |table| * bs && cols != []
    ensures pos / bs < |table| && pos % bs < bs
    ensures var w := WriteAt(bs, st, table, pos, cols[0]);
      if w.OutOfBlocks? then WriteFrom(bs, st, table, pos, cols).OutOfBlocks?
      else
        && Shaped(bs, w.store) && FreeListOk(w.store.pool) && InRange(w.store, w.table) && |w.table| == |table|
        && WriteFrom(bs, st, table, pos, cols) == WriteFrom(bs, w.store, w.table, pos + 1, cols[1..])
  {
    PageBound(pos, |table|, bs);
    WriteAtShape(bs, st, table, pos, cols[0]);
    hide WriteAt, Shaped, FreeListOk, InRange;
  }

  /** One column: the block is copied if it is shared, then the slot is set. */
  lemma WriteAtIs(bs: nat, st: Store, table: seq<nat>, pos: nat, col: Column, others: multiset<nat>)
    requires Ready(bs, st, table, others) && pos / bs < |table|
    ensures bs > 0 && Shaped(bs, st) && FreeListOk(st.pool) && InRange(st, table) && CanCopy(st, table, pos / bs)
    ensures var q, w := Writable(st, table, pos / bs), WriteAt(bs, st, table, pos, col);
      if q.OutOfBlocks? then w.OutOfBlocks?
      else
        && |q.table| == |table| && q.table[pos / bs] < |q.store.mem| && pos % bs < |q.store.mem[q.table[pos / bs]]|
        && w == Written(q.store.(mem := Slotted(q.store.mem, q.table[pos / bs], pos % bs, col)), q.table)
  {
    OneCopy(bs, st, table, pos / bs, others);
  }

  function Slotted(mem: seq<seq<Column>>, b: nat, k: nat, col: Column): seq<seq<Column>>
    requires b < |mem| && k < |mem[b]|
  {
    mem[b := mem[b][k := col]]
  }

  /** A write that reaches the last block of its table. */
  lemma {:induction false} WriteFromPrepared(bs: nat, st: Store, table: seq<nat>, pos: nat, cols: seq<Column>,
                                             others: multiset<nat>)
    requires Ready(bs, st, table, others) && Shaped(bs, st) && FreeListOk(st.pool) && InRange(st, table)
    requires cols != [] && pos + |cols| <= |table| * bs && |table| * bs < pos + |cols| + bs
    ensures var w := Prepare(st, table, pos / bs);
      if w.OutOfBlocks? then WriteFrom(bs, st, table, pos, cols).OutOfBlocks?
      else
        && Shaped(bs, w.store) && FreeListOk(w.store.pool) && InRange(w.store, w.table) && |w.table| == |table|
        && WriteFrom(bs, st, table, pos, cols) == WriteFrom(bs, w.store, w.table, pos, cols)
    decreases |cols|, 1
  {
    hide *;
    var i := pos / bs;
    ReadySize(bs, st, table, others);
    WriteFromStep(bs, st, table, pos, cols);
    WriteAtIs(bs, st, table, pos, cols[0], others);
    OneCopy(bs, st, table, i, others);
    PrepareStep(st, table, i);
    var q := Writable(st, table, i);
    if q.Written? {
      ReadySize(bs, q.store, q.table, others);
      ReadyParts(bs, q.store, q.table, others);
      AfterCopy(bs, q.store, q.table, pos, cols, others);
    }
  }

  /** The same once the first block has been copied. */
  lemma AfterCopy(bs: nat, st: Store, table: seq<nat>, pos: nat, cols: seq<Column>, others: multiset<nat>)
    requires Ready(bs, st, table, others) && bs > 0 && pos / bs < |table| && table[pos / bs] < |st.pool.ref|
    requires st.pool.ref[table[pos / bs]] == 1 && table[pos / bs] !in others
    requires forall j :: 0 <= j < |table| && j != pos / bs ==> table[j] != table[pos / bs]
    requires table[pos / bs] < |st.mem| && pos % bs < |st.mem[table[pos / bs]]|
    requires cols != [] && pos + |cols| <= |table| * bs && |table| * bs < pos + |cols| + bs
    ensures var st1 := st.(mem := Slotted(st.mem, table[pos / bs], pos % bs, cols[0]));
      var w := Prepare(st, table, pos / bs + 1);
      && Shaped(bs, st1) && FreeListOk(st1.pool) && InRange(st1, table) && pos + 1 + |cols[1..]| <= |table| * bs
      && if w.OutOfBlocks? then WriteFrom(bs, st1, table, pos + 1, cols[1..]).OutOfBlocks?
         else
           && Shaped(bs, w.store) && FreeListOk(w.store.pool) && InRange(w.store, w.table) && |w.table| == |table|
           && WriteFrom(bs, st1, table, pos + 1, cols[1..]) == WriteFrom(bs, w.store, w.table, pos, cols)
    decreases |cols|, 0
  {
    hide *;
    var i, k, b := pos / bs, pos % bs, table[pos / bs];
    var x, rest := st.mem[b][k := cols[0]], cols[1..];
    var st1, w := st.(mem := Slotted(st.mem, b, k, cols[0])), Prepare(st, table, i + 1);
    SlottedIs(st.mem, b, k, cols[0]);
    ReadyParts(bs, st, table, others);
    ReadyFrame(bs, st, table, others, b, x);
    ReadyParts(bs, st1, table, others);
    PrepareFrame(bs, st, table, i + 1, others, b, x);
    if rest == [] {
      LastPage(bs, pos, |table|);
      PrepareStep(st, table, i + 1);
      NothingToWrite(bs, st1, table, pos + 1);
    } else {
      WriteFromPrepared(bs, st1, table, pos + 1, rest, others);
      NextPage(pos, bs);
      OneCopy(bs, st1, table, i, others);
      PrepareStep(st1, table, i);
      UnsharedIsItself(st1, table, i);
    }
    if w.Written? {
      Prepared(bs, st, table, i + 1, others);
      ReadyParts(bs, w.store, w.table, others);
      StaysPrivate(bs, st, table, i + 1, others, b);
      WriteFromStep(bs, w.store, w.table, pos, cols);
      WriteAtIs(bs, w.store, w.table, pos, cols[0], others);
      UnsharedIsItself(w.store, w.table, i);
      SlottedIs(w.store.mem, b, k, cols[0]);
    }
  }

  lemma SlottedIs(mem: seq<seq<Column>>, b: nat, k: nat, col: Column)
    requires b < |mem| && k < |mem[b]|
    ensures Slotted(mem, b, k, col) == mem[b := mem[b][k := col]]
  {
  }

  lemma ReadyParts(bs: nat, st: Store, table: seq<nat>, others: multiset<nat>)
    requires Ready(bs, st, table, others)
    ensures Shaped(bs, st) && FreeListOk(st.pool) && InRange(st, table) && Counts(st.pool, multiset(table) + others)
    ensures |st.mem| == |st.pool.ref| && forall b :: 0 <= b < |st.mem| ==> |st.mem[b]| == bs
  {
  }

  lemma LastPage(bs: nat, pos: nat, pages: nat)
    requires bs > 0 && pages * bs < pos + 1 + bs
    ensures pages <= pos / bs + 1
  {
    var q := pos / bs;
    assert pos < q * bs + bs;
    assert (q + 2) * bs == q * bs + bs + bs;
    if pages > q + 1 {
      MulMono(q + 2, pages, bs);
    }
  }

  lemma NextPage(pos: nat, bs: nat)
    requires bs > 0
    ensures (pos + 1) / bs == pos / bs || (pos + 1) / bs == pos / bs + 1
  {
    var q, k := pos / bs, pos % bs;
    assert pos == q * bs + k;
    if k + 1 < bs {
      PositionUnique(pos + 1, q, k + 1, bs);
    } else {
      assert (q + 1) * bs == q * bs + bs;
      PositionUnique(pos + 1, q + 1, 0, bs);
    }
  }

  lemma NothingToWrite(bs: nat, st: Store, table: seq<nat>, pos: nat)
    requires Shaped(bs, st) && FreeListOk(st.pool) && InRange(st, table) && pos <= |table| * bs
    ensures WriteFrom(bs, st, table, pos, []) == Written(st, table)
  {
  }

  lemma UnsharedIsItself(st: Store, table: seq<nat>, i: nat)
    requires CanCopy(st, table, i)
    ensures st.pool.ref[table[i]] <= 1 ==> Writable(st, table, i) == Written(st, table)
  {
  }

  // ---- when it succeeds

  /** How many blocks from index i on are copied: a block met again counts with a reference less. */
  function Copies(ref: seq<nat>, table: seq<nat>, i: nat): nat
    requires forall j :: i <= j < |table| ==> table[j] < |ref|
    decreases |table| - i
  {
    if i >= |table| then 0
    else if ref[table[i]] > 1 then 1 + Copies(ref[table[i] := ref[table[i]] - 1], table, i + 1)
    else Copies(ref, table, i + 1)
  }

  /** In a table without repeats those are the shared blocks. */
  function Shared(ref: seq<nat>, table: seq<nat>, i: nat): nat
    requires forall j :: i <= j < |table| ==> table[j] < |ref|
    decreases |table| - i
  {
    if i >= |table| then 0 else (if ref[table[i]] > 1 then 1 else 0) + Shared(ref, table, i + 1)
  }

  lemma {:induction false} SharedFrame(ref: seq<nat>, ref': seq<nat>, table: seq<nat>, i: nat)
    requires forall j :: i <= j < |table| ==> table[j] < |ref| && table[j] < |ref'| && ref'[table[j]] == ref[table[j]]
    ensures Shared(ref', table, i) == Shared(ref, table, i)
    decreases |table| - i
  {
    if i < |table| {
      SharedFrame(ref, ref', table, i + 1);
    }
  }

  lemma {:induction false} CopiesAreShared(ref: seq<nat>, table: seq<nat>, i: nat)
    requires NoneTwice(table, i) && forall j :: i <= j < |table| ==> table[j] < |ref|
    ensures Copies(ref, table, i) == Shared(ref, table, i)
    decreases |table| - i
  {
    if i < |table| {
      if ref[table[i]] > 1 {
        var ref' := ref[table[i] := ref[table[i]] - 1];
        CopiesAreShared(ref', table, i + 1);
        SharedFrame(ref, ref', table, i + 1);
      } else {
        CopiesAreShared(ref, table, i + 1);
      }
    }
  }

  /** Only the counts of the rest of the table matter; private blocks added at its end do not. */
  lemma {:induction false} CopiesFrame(ref: seq<nat>, ref': seq<nat>, table: seq<nat>, table': seq<nat>, i: nat)
    requires |table| <= |table'|
    requires forall j :: i <= j < |table| ==>
      table'[j] == table[j] && table[j] < |ref| && table[j] < |ref'| && ref'[table[j]] == ref[table[j]]
    requires forall j :: i <= j < |table'| && |table| <= j ==> table'[j] < |ref'| && ref'[table'[j]] <= 1
    ensures forall j :: i <= j < |table'| ==> table'[j] < |ref'|
    ensures Copies(ref', table', i) == Copies(ref, table, i)
    decreases |table'| - i
  {
    if i < |table| && ref[table[i]] > 1 {
      var b := table[i];
      CopiesFrame(ref[b := ref[b] - 1], ref'[b := ref'[b] - 1], table, table', i + 1);
    } else if i < |table'| {
      CopiesFrame(ref, ref', table, table', i + 1);
    }
  }

  lemma CopyCosts(bs: nat, st: Store, table: seq<nat>, i: nat, others: multiset<nat>)
    requires Ready(bs, st, table, others) && i < |table| && Writable(st, table, i).Written?
    ensures var q, b := Writable(st, table, i), table[i];
      var ref := if st.pool.ref[b] > 1 then st.pool.ref[b := st.pool.ref[b] - 1] else st.pool.ref;
      && |q.store.pool.free| == |st.pool.free| - (if st.pool.ref[b] > 1 then 1 else 0)
      && |q.table| == |table| && |q.store.pool.ref| == |st.pool.ref|
      && forall j :: i < j < |table| ==> q.table[j] == table[j] && q.store.pool.ref[table[j]] == ref[table[j]]
  {
    forall j | 0 <= j < |table|
      ensures table[j] !in st.pool.free
    {
      assert table[j] in multiset(table);
    }
  }

  lemma {:induction false} PrepareExactly(bs: nat, st: Store, table: seq<nat>, i: nat, others: multiset<nat>)
    requires Ready(bs, st, table, others)
    ensures forall j :: i <= j < |table| ==> table[j] < |st.pool.ref|
    ensures Prepare(st, table, i).Written? <==> Copies(st.pool.ref, table, i) <= |st.pool.free|
    ensures Prepare(st, table, i).Written? ==>
      |Prepare(st, table, i).store.pool.free| == |st.pool.free| - Copies(st.pool.ref, table, i)
    decreases |table| - i
  {
    hide *;
    ReadySize(bs, st, table, others);
    PrepareStep(st, table, i);
    CopiesStep(st.pool.ref, table, i);
    if i < |table| {
      OneCopy(bs, st, table, i, others);
      var q, b := Writable(st, table, i), table[i];
      if q.Written? {
        CopyCosts(bs, st, table, i, others);
        PrepareExactly(bs, q.store, q.table, i + 1, others);
        var ref := if st.pool.ref[b] > 1 then st.pool.ref[b := st.pool.ref[b] - 1] else st.pool.ref;
        CopiesFrame(ref, q.store.pool.ref, table, q.table, i + 1);
      }
    }
  }

  lemma CopiesStep(ref: seq<nat>, table: seq<nat>, i: nat)
    requires forall j :: i <= j < |table| ==> table[j] < |ref|
    ensures i >= |table| ==> Copies(ref, table, i) == 0
    ensures i < |table| && ref[table[i]] > 1 ==>
      Copies(ref, table, i) == 1 + Copies(ref[table[i] := ref[table[i]] - 1], table, i + 1)
    ensures i < |table| && ref[table[i]] <= 1 ==> Copies(ref, table, i) == Copies(ref, table, i + 1)
  {
  }

  // ---- whole writes

  /** Capacity for `total` tokens, and the blocks from position `start` on made private. */
  ghost function Readied(bs: nat, st: Store, table: seq<nat>, start: nat, total: nat): Written
    requires bs > 0 && FreeListOk(st.pool)
  {
    PreparedFrom(EnsureCapacity(bs, st, table, total), start / bs)
  }

  ghost function PreparedFrom(g: Written, i: nat): Written {
    if g.OutOfBlocks? then g else Prepare(g.store, g.table, i)
  }

  /** The table has no blocks past the one position total - 1 goes to. */
  predicate Tidy(bs: nat, table: seq<nat>, total: nat) { bs > 0 && |table| <= CeilDiv(total, bs) }

  ghost predicate InPool(p: Pool, table: seq<nat>) { forall j :: 0 <= j < |table| ==> table[j] < |p.ref| }

  /** The blocks to add and the blocks to copy. */
  ghost function Cost(bs: nat, p: Pool, table: seq<nat>, start: nat, total: nat): nat
    requires bs > 0 && InPool(p, table)
  {
    BlocksNeeded(bs, table, total) + Copies(p.ref, table, start / bs)
  }

  /** Growing keeps what there was; what is new is private. */
  lemma Grown(bs: nat, st: Store, table: seq<nat>, total: nat, others: multiset<nat>)
    requires Ready(bs, st, table, others) && bs > 0 && FreeListOk(st.pool)
    ensures EnsureCapacity(bs, st, table, total).OutOfBlocks? <==> BlocksNeeded(bs, table, total) > |st.pool.free|
    ensures var g := EnsureCapacity(bs, st, table, total);
      g.Written? ==>
        && Ready(bs, g.store, g.table, others) && table <= g.table && total <= |g.table| * bs && g.store.mem == st.mem
        && |g.table| == |table| + BlocksNeeded(bs, table, total)
        && |g.store.pool.free| == |st.pool.free| - BlocksNeeded(bs, table, total)
        && |g.store.pool.ref| == |st.pool.ref|
        && (forall b :: 0 <= b < |st.pool.ref| && st.pool.ref[b] > 0 ==> g.store.pool.ref[b] == st.pool.ref[b])
        && PrivateFrom(g.store.pool, g.table, |table|)
  {
    var need, held := BlocksNeeded(bs, table, total), multiset(table) + others;
    hide Counts, Shaped, PrivateFrom, BlocksNeeded;
    if need <= |st.pool.free| {
      EnsureCapacityShape(bs, st, table, total);
      EnsureCapacityCounts(bs, st, table, total, others);
      NothingLeft(st.pool, table, |table|);
      GrownPrivate(bs, st, table, total, |table|, held);
      AllocateManyFreeList(st.pool, need);
      hide FreeListOk, AllocateMany, NextBlocks;
      forall b | 0 <= b < |st.pool.ref| && st.pool.ref[b] > 0
        ensures AllocateMany(st.pool, need).ref[b] == st.pool.ref[b]
      {
        AllocateKeeps(st.pool, need, held, b);
      }
    }
  }

  /** Room and private blocks can be had exactly when they are affordable. */
  lemma ReadiedExactly(bs: nat, st: Store, table: seq<nat>, start: nat, total: nat, others: multiset<nat>)
    requires Ready(bs, st, table, others) && bs > 0 && FreeListOk(st.pool)
    ensures InPool(st.pool, table)
    ensures var w, cost := Readied(bs, st, table, start, total), Cost(bs, st.pool, table, start, total);
      && (w.Written? <==> cost <= |st.pool.free|)
      && (w.Written? ==> |w.store.pool.free| + cost == |st.pool.free|)
  {
    ReadySize(bs, st, table, others);
    Grown(bs, st, table, total, others);
    var g := EnsureCapacity(bs, st, table, total);
    hide EnsureCapacity, Prepare, Ready, FreeListOk, BlocksNeeded, Copies;
    if g.Written? {
      PrepareExactly(bs, g.store, g.table, start / bs, others);
      CopiesFrame(st.pool.ref, g.store.pool.ref, table, g.table, start / bs);
    }
  }

  /** What is ready for the writes of positions start .. total - 1. */
  ghost predicate Private(bs: nat, st: Store, table: seq<nat>, start: nat, total: nat, others: multiset<nat>) {
    && Ready(bs, st, table, others) && Exclusive(bs, st, table, start, total, start / bs)
    && total <= |table| * bs
  }

  lemma ReadiedIs(bs: nat, st: Store, table: seq<nat>, start: nat, total: nat, others: multiset<nat>)
    requires Ready(bs, st, table, others) && bs > 0 && FreeListOk(st.pool)
    requires Readied(bs, st, table, start, total).Written?
    ensures var w := Readied(bs, st, table, start, total);
      && Private(bs, w.store, w.table, start, total, others)
      && |w.table| == |table| + BlocksNeeded(bs, table, total)
      && (forall j :: 0 <= j < start / bs && j < |table| ==> w.table[j] == table[j])
  {
    Grown(bs, st, table, total, others);
    var g := EnsureCapacity(bs, st, table, total);
    hide EnsureCapacity, Prepare, Ready, FreeListOk, PrivateFrom, Tidy;
    Prepared(bs, g.store, g.table, start / bs, others);
    CeilDivFits(total, bs, |g.table|);
    StartsThere(start, bs);
  }

  lemma StartsThere(start: nat, bs: nat)
    requires bs > 0
    ensures start / bs * bs <= start
  {
  }

  lemma TidyReaches(bs: nat, table: seq<nat>, total: nat)
    requires Tidy(bs, table, total)
    ensures |table| + BlocksNeeded(bs, table, total) == CeilDiv(total, bs)
    ensures total > 0 ==> CeilDiv(total, bs) * bs < total + bs
  {
    var q := CeilDiv(total, bs);
    if q > 0 {
      assert q * bs == (q - 1) * bs + bs;
    }
  }

  /** A write is what it is once its blocks are private; if they cannot be had it fails. */
  lemma WriteReadied(bs: nat, st: Store, table: seq<nat>, start: nat, cols: seq<Column>, others: multiset<nat>)
    requires Ready(bs, st, table, others) && Shaped(bs, st) && FreeListOk(st.pool) && InRange(st, table)
    requires cols != [] && bs > 0 && Tidy(bs, table, start + |cols|)
    ensures var w := Readied(bs, st, table, start, start + |cols|);
      if w.OutOfBlocks? then Write(bs, st, table, start, cols).OutOfBlocks?
      else
        && Shaped(bs, w.store) && FreeListOk(w.store.pool) && InRange(w.store, w.table)
        && Write(bs, st, table, start, cols) == Write(bs, w.store, w.table, start, cols)
  {
    hide *;
    var total := start + |cols|;
    var g, w := EnsureCapacity(bs, st, table, total), Readied(bs, st, table, start, total);
    Grown(bs, st, table, total, others);
    ReadiedUnfold(bs, st, table, start, total);
    PreparedFromIs(g, start / bs);
    WriteUnfold(bs, st, table, start, cols);
    if g.Written? {
      ReadyParts(bs, g.store, g.table, others);
      TidyReaches(bs, table, total);
      WriteFromPrepared(bs, g.store, g.table, start, cols, others);
      if w.Written? {
        ReadiedIs(bs, st, table, start, total, others);
        PrivateParts(bs, w.store, w.table, start, total, others);
        Roomed(bs, w.store, w.table, total);
        WriteUnfold(bs, w.store, w.table, start, cols);
      }
    }
  }

  lemma ReadiedUnfold(bs: nat, st: Store, table: seq<nat>, start: nat, total: nat)
    requires bs > 0 && FreeListOk(st.pool)
    ensures Readied(bs, st, table, start, total) == PreparedFrom(EnsureCapacity(bs, st, table, total), start / bs)
  {
    hide EnsureCapacity, PreparedFrom;
  }

  lemma PreparedFromIs(g: Written, i: nat)
    ensures g.OutOfBlocks? ==> PreparedFrom(g, i).OutOfBlocks?
    ensures g.Written? ==> PreparedFrom(g, i) == Prepare(g.store, g.table, i)
  {
    hide Prepare;
  }

  lemma WriteUnfold(bs: nat, st: Store, table: seq<nat>, start: nat, cols: seq<Column>)
    requires Shaped(bs, st) && FreeListOk(st.pool) && InRange(st, table) && cols != [] && bs > 0
    ensures var g := EnsureCapacity(bs, st, table, start + |cols|);
      if g.OutOfBlocks? then Write(bs, st, table, start, cols).OutOfBlocks?
      else
        && Shaped(bs, g.store) && FreeListOk(g.store.pool) && InRange(g.store, g.table)
        && start + |cols| <= |g.table| * bs
        && Write(bs, st, table, start, cols) == WriteFrom(bs, g.store, g.table, start, cols)
  {
    EnsureCapacityShape(bs, st, table, start + |cols|);
    hide EnsureCapacity, WriteFrom, Shaped, FreeListOk, InRange;
  }

  lemma PrivateParts(bs: nat, st: Store, table: seq<nat>, start: nat, total: nat, others: multiset<nat>)
    requires Private(bs, st, table, start, total, others)
    ensures Ready(bs, st, table, others) && Exclusive(bs, st, table, start, total, start / bs)
    ensures total <= |table| * bs && bs > 0
    ensures Shaped(bs, st) && FreeListOk(st.pool) && InRange(st, table) && Counts(st.pool, multiset(table) + others)
  {
  }

  lemma Roomed(bs: nat, st: Store, table: seq<nat>, total: nat)
    requires bs > 0 && FreeListOk(st.pool) && total <= |table| * bs
    ensures EnsureCapacity(bs, st, table, total) == Written(st, table)
  {
    NothingMore(bs, st.pool, table, total);
    assert table + NextBlocks(st.pool, 0) == table;
  }

  /** A write succeeds exactly when the blocks to add and the blocks to copy are free. */
  lemma WriteExactly(bs: nat, st: Store, table: seq<nat>, start: nat, cols: seq<Column>, others: multiset<nat>)
    requires Ready(bs, st, table, others) && Shaped(bs, st) && FreeListOk(st.pool) && InRange(st, table)
    requires cols != [] && bs > 0 && Tidy(bs, table, start + |cols|)
    ensures InPool(st.pool, table)
    ensures Write(bs, st, table, start, cols).Written? <==>
      Cost(bs, st.pool, table, start, start + |cols|) <= |st.pool.free|
  {
    hide *;
    var total := start + |cols|;
    var w := Readied(bs, st, table, start, total);
    WriteReadied(bs, st, table, start, cols, others);
    ReadiedExactly(bs, st, table, start, total, others);
    if w.Written? {
      ReadiedIs(bs, st, table, start, total, others);
      PrivateParts(bs, w.store, w.table, start, total, others);
      WritePuts(bs, w.store, w.table, start, cols, start / bs, multiset(w.table) + others);
    }
  }

  lemma GatherLength(bs: nat, st: Store, table: seq<nat>, n: nat)
    requires Shaped(bs, st) && InRange(st, table) && n <= |table| * bs
    ensures |Gather(bs, st, table, n)| == n
  {
  }
}
