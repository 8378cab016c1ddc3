/**
 Writes into blocks nobody else references: they copy nothing, so a write is an
 assignment to slots. Writing the same positions again forgets the first write, a
 write in two pieces is the write of both, and writes through different tables
 commute.
 */
module PrivateWrites {
  import opened Numbers
  import opened Blocks
  import opened Decoding
  import opened Paging

  ghost predicate Fits(bs: nat, mem: seq<seq<Column>>, table: seq<nat>) {
    && bs > 0 && (forall b :: 0 <= b < |mem| ==> |mem[b]| == bs)
    && forall i :: 0 <= i < |table| ==> table[i] < |mem|
  }

  /** Memory with one column put at a logical position. */
  ghost function Put(bs: nat, mem: seq<seq<Column>>, table: seq<nat>, pos: nat, col: Column): (r: seq<seq<Column>>)
    requires Fits(bs, mem, table) && pos < |table| * bs
    ensures Fits(bs, r, table) && |r| == |mem|
  {
    PageBound(pos, |table|, bs);
    mem[table[pos / bs] := mem[table[pos / bs]][pos % bs := col]]
  }

  /** Memory with columns put at pos, pos + 1, ... */
  ghost function PutAll(bs: nat, mem: seq<seq<Column>>, table: seq<nat>, pos: nat,
                        cols: seq<Column>): (r: seq<seq<Column>>)
    requires Fits(bs, mem, table) && pos + |cols| <= |table| * bs
    ensures Fits(bs, r, table) && |r| == |mem|
    decreases |cols|
  {
    if cols == [] then mem else PutAll(bs, Put(bs, mem, table, pos, cols[0]), table, pos + 1, cols[1..])
  }

  /** From index `from` on, no block is twice in the table. */
  ghost predicate NoneTwice(table: seq<nat>, from: nat) {
    forall i, j :: from <= i < j < |table| ==> table[i] != table[j]
  }

  lemma PrivateOnce(p: Pool, table: seq<nat>, others: multiset<nat>, from: nat)
    requires Counts(p, multiset(table) + others) && PrivateFrom(p, table, from)
    ensures NoneTwice(table, from)
  {
    forall i, j | from <= i < j < |table|
      ensures table[i] != table[j]
    {
      assert table[i] in multiset(table);
      NotHeldElsewhere(table, i, others);
    }
  }

  // ---- a private write is an assignment to slots

  lemma {:induction false} WriteFromPuts(bs: nat, st: Store, table: seq<nat>, pos: nat, cols: seq<Column>, from: nat)
    requires Shaped(bs, st) && InRange(st, table) && FreeListOk(st.pool)
    requires from * bs <= pos && pos + |cols| <= |table| * bs && PrivateFrom(st.pool, table, from)
    ensures Fits(bs, st.mem, table)
    ensures WriteFrom(bs, st, table, pos, cols) == Written(st.(mem := PutAll(bs, st.mem, table, pos, cols)), table)
    decreases |cols|
  {
    if cols != [] {
      PageBound(pos, |table|, bs);
      PageAtLeast(pos, from, bs);
      WriteAtShape(bs, st, table, pos, cols[0]);
      var w := WriteAt(bs, st, table, pos, cols[0]);
      assert w == Written(st.(mem := Put(bs, st.mem, table, pos, cols[0])), table);
      WriteFromPuts(bs, w.store, table, pos + 1, cols[1..], from);
    }
  }

  /** Nobody else references the blocks from index `from` on, and the blocks needed are free. */
  ghost predicate Exclusive(bs: nat, st: Store, table: seq<nat>, start: nat, total: nat, from: nat) {
    && bs > 0 && PrivateFrom(st.pool, table, from) && from * bs <= start
    && BlocksNeeded(bs, table, total) <= |st.pool.free|
  }

  /** The table once it has room for `total` tokens. */
  function GrownTable(bs: nat, p: Pool, table: seq<nat>, total: nat): seq<nat>
    requires bs > 0 && BlocksNeeded(bs, table, total) <= |p.free|
  {
    table + NextBlocks(p, BlocksNeeded(bs, table, total))
  }

  lemma GrownTableFits(bs: nat, st: Store, table: seq<nat>, total: nat)
    requires Shaped(bs, st) && InRange(st, table) && FreeListOk(st.pool)
    requires BlocksNeeded(bs, table, total) <= |st.pool.free|
    ensures Fits(bs, st.mem, GrownTable(bs, st.pool, table, total))
    ensures total <= |GrownTable(bs, st.pool, table, total)| * bs
  {
    EnsureCapacityShape(bs, st, table, total);
  }

  lemma WritePuts(bs: nat, st: Store, table: seq<nat>, start: nat, cols: seq<Column>, from: nat, held: multiset<nat>)
    requires Shaped(bs, st) && InRange(st, table) && FreeListOk(st.pool) && Counts(st.pool, held)
    requires cols != [] && Exclusive(bs, st, table, start, start + |cols|, from)
    ensures var need, table' := BlocksNeeded(bs, table, start + |cols|), GrownTable(bs, st.pool, table, start + |cols|);
      && Fits(bs, st.mem, table') && start + |cols| <= |table'| * bs
      && Write(bs, st, table, start, cols) ==
           Written(Store(AllocateMany(st.pool, need), PutAll(bs, st.mem, table', start, cols)), table')
      && PrivateFrom(AllocateMany(st.pool, need), table', from)
  {
    var n := start + |cols|;
    var g := EnsureCapacity(bs, st, table, n);
    EnsureCapacityShape(bs, st, table, n);
    GrownTableFits(bs, st, table, n);
    GrownPrivate(bs, st, table, n, from, held);
    hide Shaped, Counts, FreeListOk, InRange, PrivateFrom, BlocksNeeded, WriteFrom;
    WriteFromPuts(bs, g.store, g.table, start, cols, from);
  }

  /** Allocation changes no count but those of the blocks it hands out. */
  lemma AllocateKeeps(p: Pool, n: nat, held: multiset<nat>, b: nat)
    requires Counts(p, held) && FreeListOk(p) && n <= |p.free| && b < |p.ref| && p.ref[b] > 0
    ensures b < |AllocateMany(p, n).ref| == |p.ref| && AllocateMany(p, n).ref[b] == p.ref[b]
  {
    AllocateManyFreeList(p, n);
    AllocateManyCounts(p, n, held);
    NextBlocksAreFree(p, n, held);
    var more: seq<nat> := NextBlocks(p, n);
    var after: multiset<nat> := held + multiset(more);
    assert held[b] > 0 && b in held;
    assert b !in more;
    assert after[b] == held[b];
    assert AllocateMany(p, n).ref[b] == after[b];
    hide FreeListOk, AllocateMany, NextBlocks;
  }

  // ---- the algebra of slots

  lemma PutTwice(bs: nat, mem: seq<seq<Column>>, table: seq<nat>, p: nat, x: Column, y: Column)
    requires Fits(bs, mem, table) && p < |table| * bs
    ensures Put(bs, Put(bs, mem, table, p, x), table, p, y) == Put(bs, mem, table, p, y)
  {
    PageBound(p, |table|, bs);
    var b, k := table[p / bs], p % bs;
    assert mem[b][k := x][k := y] == mem[b][k := y];
    assert mem[b := mem[b][k := x]][b := mem[b][k := y]] == mem[b := mem[b][k := y]];
  }

  /** Two slots: different blocks, or different places in one. */
  ghost predicate Apart(bs: nat, t: seq<nat>, p: nat, u: seq<nat>, q: nat) {
    bs > 0 && p / bs < |t| && q / bs < |u| && (t[p / bs] != u[q / bs] || p % bs != q % bs)
  }

  lemma PutsCommute(bs: nat, mem: seq<seq<Column>>, t: seq<nat>, p: nat, x: Column, u: seq<nat>, q: nat, y: Column)
    requires Fits(bs, mem, t) && Fits(bs, mem, u) && p < |t| * bs && q < |u| * bs && Apart(bs, t, p, u, q)
    ensures Fits(bs, Put(bs, mem, t, p, x), u) && Fits(bs, Put(bs, mem, u, q, y), t)
    ensures Put(bs, Put(bs, mem, t, p, x), u, q, y) == Put(bs, Put(bs, mem, u, q, y), t, p, x)
  {
    PageBound(p, |t|, bs);
    PageBound(q, |u|, bs);
    var b, c, i, j := t[p / bs], u[q / bs], p % bs, q % bs;
    var l, r := Put(bs, Put(bs, mem, t, p, x), u, q, y), Put(bs, Put(bs, mem, u, q, y), t, p, x);
    if b == c {
      assert l[b] == mem[b][i := x][j := y] == mem[b][j := y][i := x] == r[b];
    }
    assert l == r;
  }

  lemma OneTableApart(bs: nat, table: seq<nat>, from: nat, p: nat, q: nat)
    requires bs > 0 && NoneTwice(table, from) && from * bs <= p < q < |table| * bs
    ensures Apart(bs, table, p, table, q)
  {
    PageBound(p, |table|, bs);
    PageBound(q, |table|, bs);
    PageAtLeast(p, from, bs);
    PageAtLeast(q, from, bs);
    if p / bs == q / bs {
      assert p == p / bs * bs + p % bs && q == q / bs * bs + q % bs;
    }
  }

  /** A put before a run of puts at later positions can be done after it. */
  lemma {:induction false} PutLater(bs: nat, mem: seq<seq<Column>>, table: seq<nat>, p: nat, x: Column, pos: nat,
                                    cols: seq<Column>, from: nat)
    requires Fits(bs, mem, table) && NoneTwice(table, from) && from * bs <= p < pos && pos + |cols| <= |table| * bs
    requires p < |table| * bs
    ensures Put(bs, PutAll(bs, mem, table, pos, cols), table, p, x) ==
      PutAll(bs, Put(bs, mem, table, p, x), table, pos, cols)
    decreases |cols|
  {
    if cols != [] {
      hide Fits, NoneTwice, Apart;
      OneTableApart(bs, table, from, p, pos);
      PutsCommute(bs, mem, table, p, x, table, pos, cols[0]);
      PutLater(bs, Put(bs, mem, table, pos, cols[0]), table, p, x, pos + 1, cols[1..], from);
    }
  }

  /** Writing the same positions again forgets the first write. */
  lemma {:induction false} PutAllTwice(bs: nat, mem: seq<seq<Column>>, table: seq<nat>, pos: nat, a: seq<Column>,
                                       b: seq<Column>, from: nat)
    requires Fits(bs, mem, table) && NoneTwice(table, from) && from * bs <= pos && pos + |a| <= |table| * bs
    requires |a| == |b|
    ensures PutAll(bs, PutAll(bs, mem, table, pos, a), table, pos, b) == PutAll(bs, mem, table, pos, b)
    decreases |a|
  {
    if a != [] {
      hide Fits, NoneTwice, Put;
      var one := Put(bs, mem, table, pos, a[0]);
      PutLater(bs, one, table, pos, b[0], pos + 1, a[1..], from);
      PutTwice(bs, mem, table, pos, a[0], b[0]);
      PutAllTwice(bs, Put(bs, mem, table, pos, b[0]), table, pos + 1, a[1..], b[1..], from);
    }
  }

  /** A write in two pieces is the write of both. */
  lemma {:induction false} PutAllSplit(bs: nat, mem: seq<seq<Column>>, table: seq<nat>, pos: nat, a: seq<Column>,
                                       b: seq<Column>)
    requires Fits(bs, mem, table) && pos + |a| + |b| <= |table| * bs
    ensures PutAll(bs, mem, table, pos, a + b) == PutAll(bs, PutAll(bs, mem, table, pos, a), table, pos + |a|, b)
    decreases |a|
  {
    if a == [] {
      assert a + b == b;
    } else {
      hide Fits, Put;
      assert (a + b)[1..] == a[1..] + b && (a + b)[0] == a[0];
      PutAllSplit(bs, Put(bs, mem, table, pos, a[0]), table, pos + 1, a[1..], b);
    }
  }

  /** A longer table writes the same slots. */
  lemma {:induction false} PutAllGrown(bs: nat, mem: seq<seq<Column>>, table: seq<nat>, more: seq<nat>, pos: nat,
                                       cols: seq<Column>)
    requires Fits(bs, mem, table) && Fits(bs, mem, table + more) && pos + |cols| <= |table| * bs
    ensures pos + |cols| <= |table + more| * bs
    ensures PutAll(bs, mem, table + more, pos, cols) == PutAll(bs, mem, table, pos, cols)
    decreases |cols|
  {
    MulMono(|table|, |table + more|, bs);
    if cols != [] {
      PageBound(pos, |table|, bs);
      assert (table + more)[pos / bs] == table[pos / bs];
      assert Put(bs, mem, table + more, pos, cols[0]) == Put(bs, mem, table, pos, cols[0]);
      PutAllGrown(bs, Put(bs, mem, table, pos, cols[0]), table, more, pos + 1, cols[1..]);
    }
  }

  // ---- whole writes

  /** Writing the same positions again forgets the first write, table and all. */
  lemma Overwrite(bs: nat, st: Store, table: seq<nat>, start: nat, a: seq<Column>, b: seq<Column>, from: nat,
                  held: multiset<nat>, others: multiset<nat>)
    requires Shaped(bs, st) && InRange(st, table) && FreeListOk(st.pool) && Counts(st.pool, held)
    requires a != [] && |a| == |b| && Exclusive(bs, st, table, start, start + |a|, from)
    requires Write(bs, st, table, start, a).Written?
    requires var w := Write(bs, st, table, start, a);
      Shaped(bs, w.store) && InRange(w.store, w.table) && FreeListOk(w.store.pool)
        && Counts(w.store.pool, multiset(w.table) + others)
    ensures var w := Write(bs, st, table, start, a);
      Write(bs, w.store, w.table, start, b) == Write(bs, st, table, start, b)
  {
    var w := Write(bs, st, table, start, a);
    hide Shaped, InRange, FreeListOk, Counts, PrivateFrom, Fits, Write;
    WritePuts(bs, st, table, start, a, from, held);
    WritePuts(bs, st, table, start, b, from, held);
    NothingMore(bs, w.store.pool, w.table, start + |a|);
    PrivateOnce(w.store.pool, w.table, others, from);
    WritePuts(bs, w.store, w.table, start, b, from, multiset(w.table) + others);
    PutAllTwice(bs, st.mem, w.table, start, a, b, from);
  }

  lemma NothingMore(bs: nat, p: Pool, table: seq<nat>, total: nat)
    requires bs > 0 && total <= |table| * bs && FreeListOk(p)
    ensures BlocksNeeded(bs, table, total) == 0 <= |p.free| && GrownTable(bs, p, table, total) == table
    ensures AllocateMany(p, 0) == p
  {
    CeilDivFits(total, bs, |table|);
    assert table + NextBlocks(p, 0) == table;
  }
}
