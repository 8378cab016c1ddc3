/**
 One write for each sequence of a batch whose sequences may share blocks. The room and
 the copies that all of them need can be made first, in the same order; what follows are
 writes into blocks of one's own.
 */
module SharedBatch {
  import opened Numbers
  import opened Options
  import opened Blocks
  import opened Decoding
  import opened Paging
  import opened PrivateWrites
  import opened SharedWrites
  import opened Serving
  import opened BatchWrites

  // ---- the batch

  ghost predicate BatchReady(bs: nat, st: Store, tables: seq<seq<nat>>, rest: multiset<nat>) {
    && Shaped(bs, st) && FreeListOk(st.pool) && Counts(st.pool, All(tables) + rest)
    && forall c :: 0 <= c < |tables| ==> InRange(st, tables[c])
  }

  /** No table has blocks past the one its next position goes to. */
  predicate Tidies(bs: nat, tables: seq<seq<nat>>, positions: seq<nat>) {
    |tables| == |positions| && forall c :: 0 <= c < |tables| ==> Tidy(bs, tables[c], positions[c] + 1)
  }

  lemma ReadyAt(bs: nat, st: Store, tables: seq<seq<nat>>, rest: multiset<nat>, s: nat)
    requires BatchReady(bs, st, tables, rest) && s < |tables|
    ensures Ready(bs, st, tables[s], AllBut(tables, s) + rest)
    ensures bs > 0 && Shaped(bs, st) && FreeListOk(st.pool) && InRange(st, tables[s])
  {
    Regrouped(tables, s, rest);
    hide Shaped, FreeListOk, Counts, InRange, All, AllBut;
  }

  lemma BatchUpdate(bs: nat, st: Store, tables: seq<seq<nat>>, rest: multiset<nat>, s: nat, st': Store, t: seq<nat>)
    requires BatchReady(bs, st, tables, rest) && s < |tables| && |st'.mem| == |st.mem|
    requires Ready(bs, st', t, AllBut(tables, s) + rest)
    ensures BatchReady(bs, st', tables[s := t], rest)
  {
    AllButUpdate(tables, s, t);
    Regrouped(tables[s := t], s, rest);
    hide Shaped, FreeListOk, Counts, All, AllBut;
  }

  /** A block held by sequence c is live, and if its count is one it is nobody else's. */
  lemma HeldBy(bs: nat, st: Store, tables: seq<seq<nat>>, rest: multiset<nat>, c: nat, k: nat)
    requires BatchReady(bs, st, tables, rest) && c < |tables| && k < |tables[c]|
    ensures tables[c][k] < |st.mem| == |st.pool.ref| && st.pool.ref[tables[c][k]] > 0
    ensures st.pool.ref[tables[c][k]] == 1 ==>
      forall d, j :: 0 <= d < |tables| && d != c && 0 <= j < |tables[d]| ==> tables[d][j] != tables[c][k]
  {
    AllHolds(tables, c, k);
    assert tables[c][k] in All(tables) + rest;
    if st.pool.ref[tables[c][k]] == 1 {
      Regrouped(tables, c, rest);
      NotHeldElsewhere(tables[c], k, AllBut(tables, c) + rest);
      forall d, j | 0 <= d < |tables| && d != c && 0 <= j < |tables[d]|
        ensures tables[d][j] != tables[c][k]
      {
        OthersHold(tables, c, d);
        assert tables[d][j] in AllBut(tables, c) + rest;
      }
    }
  }

  /** Sequence c's next position is in a block of its own. */
  ghost predicate Own(bs: nat, st: Store, table: seq<nat>, pos: nat) {
    && bs > 0 && pos / bs < |table| && pos < |table| * bs
    && table[pos / bs] < |st.pool.ref| && st.pool.ref[table[pos / bs]] == 1
  }

  // ---- one sequence made ready

  /** A live block of somebody else's keeps its count and contents. */
  lemma ReadiedLeaves(bs: nat, st: Store, table: seq<nat>, start: nat, total: nat, others: multiset<nat>, b: nat)
    requires Ready(bs, st, table, others) && bs > 0 && FreeListOk(st.pool)
    requires Readied(bs, st, table, start, total).Written?
    requires b < |st.mem| && b < |st.pool.ref| && st.pool.ref[b] > 0 && forall j :: 0 <= j < |table| ==> table[j] != b
    ensures var w := Readied(bs, st, table, start, total);
      && |w.store.mem| == |st.mem| == |w.store.pool.ref| && w.store.mem[b] == st.mem[b]
      && w.store.pool.ref[b] == st.pool.ref[b]
  {
    hide *;
    var g := EnsureCapacity(bs, st, table, total);
    Grown(bs, st, table, total, others);
    ReadiedUnfold(bs, st, table, start, total);
    PreparedFromIs(g, start / bs);
    NotAmongNew(bs, st, table, total, others, b);
    StaysPrivate(bs, g.store, g.table, start / bs, others, b);
  }

  /** A live block is not among those just allocated. */
  lemma NotAmongNew(bs: nat, st: Store, table: seq<nat>, total: nat, others: multiset<nat>, b: nat)
    requires Ready(bs, st, table, others) && bs > 0 && FreeListOk(st.pool)
    requires EnsureCapacity(bs, st, table, total).Written?
    requires b < |st.pool.ref| && st.pool.ref[b] > 0 && forall j :: 0 <= j < |table| ==> table[j] != b
    ensures var g := EnsureCapacity(bs, st, table, total);
      forall j :: 0 <= j < |g.table| ==> g.table[j] != b
  {
    var need := BlocksNeeded(bs, table, total);
    NextBlocksAreFree(st.pool, need, multiset(table) + others);
    assert b in multiset(table) + others;
    hide FreeListOk, Counts, AllocateMany, NextBlocks, BlocksNeeded;
    var g := EnsureCapacity(bs, st, table, total);
    forall j | 0 <= j < |g.table|
      ensures g.table[j] != b
    {
      if j >= |table| {
        assert g.table[j] == NextBlocks(st.pool, need)[j - |table|];
        assert g.table[j] in NextBlocks(st.pool, need);
      }
    }
  }

  /** Somebody else's contents can be replaced before or after. */
  lemma ReadiedFrame(bs: nat, st: Store, table: seq<nat>, start: nat, total: nat, others: multiset<nat>, b: nat,
                     x: seq<Column>)
    requires Ready(bs, st, table, others) && bs > 0 && FreeListOk(st.pool) && |x| == bs
    requires b < |st.mem| && b < |st.pool.ref| && st.pool.ref[b] > 0 && forall j :: 0 <= j < |table| ==> table[j] != b
    ensures var w := Readied(bs, st, table, start, total);
      var w' := Readied(bs, st.(mem := st.mem[b := x]), table, start, total);
      if w.OutOfBlocks? then w'.OutOfBlocks?
      else |w.store.mem| == |st.mem| && w' == Written(w.store.(mem := w.store.mem[b := x]), w.table)
  {
    hide *;
    var st' := st.(mem := st.mem[b := x]);
    var g, g' := EnsureCapacity(bs, st, table, total), EnsureCapacity(bs, st', table, total);
    SameCapacity(bs, st, st', table, total);
    Grown(bs, st, table, total, others);
    ReadiedUnfold(bs, st, table, start, total);
    ReadiedUnfold(bs, st', table, start, total);
    PreparedFromIs(g, start / bs);
    PreparedFromIs(g', start / bs);
    if g.Written? {
      NotAmongNew(bs, st, table, total, others, b);
      PrepareFrame(bs, g.store, g.table, start / bs, others, b, x);
    }
  }

  lemma SameCapacity(bs: nat, st: Store, st': Store, table: seq<nat>, total: nat)
    requires bs > 0 && FreeListOk(st.pool) && st'.pool == st.pool
    ensures var g, g' := EnsureCapacity(bs, st, table, total), EnsureCapacity(bs, st', table, total);
      if g.OutOfBlocks? then g'.OutOfBlocks?
      else g.store.mem == st.mem && g' == Written(g.store.(mem := st'.mem), g.table)
  {
  }

  // ---- a write into one's own block is a put

  lemma OwnPut(bs: nat, st: Store, table: seq<nat>, pos: nat, col: Column, others: multiset<nat>)
    requires Ready(bs, st, table, others) && Own(bs, st, table, pos)
    ensures table[pos / bs] < |st.mem| && pos % bs < |st.mem[table[pos / bs]]|
    ensures WriteOne(bs, st, table, pos, col) ==
      Written(st.(mem := Slotted(st.mem, table[pos / bs], pos % bs, col)), table)
  {
    var one := [col];
    assert one[0] == col && one[1..] == [];
    assert bs > 0 && pos < |table| * bs && st.pool.ref[table[pos / bs]] == 1;
    hide *;
    ReadyParts(bs, st, table, others);
    WriteOneIs(bs, st, table, pos, col);
    WriteUnfold(bs, st, table, pos, one);
    Roomed(bs, st, table, pos + 1);
    WriteFromStep(bs, st, table, pos, one);
    WriteAtIs(bs, st, table, pos, col, others);
    UnsharedIsItself(st, table, pos / bs);
    var w := WriteAt(bs, st, table, pos, col);
    NothingToWrite(bs, w.store, w.table, pos + 1);
  }

  lemma WriteOneIs(bs: nat, st: Store, table: seq<nat>, pos: nat, col: Column)
    requires Shaped(bs, st) && FreeListOk(st.pool) && InRange(st, table)
    ensures WriteOne(bs, st, table, pos, col) == Write(bs, st, table, pos, [col])
  {
    hide Write, Shaped, FreeListOk, InRange;
  }

  /** It leaves the counts, the tables and the sizes alone. */
  lemma PutReady(bs: nat, st: Store, tables: seq<seq<nat>>, rest: multiset<nat>, b: nat, k: nat, col: Column)
    requires BatchReady(bs, st, tables, rest) && b < |st.mem| && k < |st.mem[b]|
    ensures BatchReady(bs, st.(mem := Slotted(st.mem, b, k, col)), tables, rest)
    ensures |Slotted(st.mem, b, k, col)| == |st.mem|
  {
    hide FreeListOk, Counts, All;
  }

  // ---- the whole batch made ready

  ghost function ReadyOne(bs: nat, st: Store, table: seq<nat>, pos: nat): Written {
    if bs > 0 && FreeListOk(st.pool) then Readied(bs, st, table, pos, pos + 1) else OutOfBlocks
  }

  /** The first n sequences get their room and their copies, in turn. */
  ghost function ReadyEach(bs: nat, st: Store, tables: seq<seq<nat>>, positions: seq<nat>, n: nat): (r: Option<Each>)
    requires n <= |tables| == |positions|
    ensures r.Some? ==> |r.value.tables| == |tables|
  {
    if n == 0 then Some(Each(st, tables))
    else
      match ReadyEach(bs, st, tables, positions, n - 1)
      case None => None
      case Some(e) =>
        var w := ReadyOne(bs, e.store, e.tables[n - 1], positions[n - 1]);
        if w.OutOfBlocks? then None else Some(Each(w.store, e.tables[n - 1 := w.table]))
  }

  /** The first n sequences are ready, and the others as they were. */
  ghost predicate Prior(bs: nat, st: Store, tables: seq<seq<nat>>, positions: seq<nat>, rest: multiset<nat>, n: nat) {
    && |tables| == |positions| && n <= |tables| && BatchReady(bs, st, tables, rest)
    && (forall c :: 0 <= c < n ==> Fixed(bs, st, tables[c], positions[c]))
    && (forall c :: n <= c < |tables| ==> Tidy(bs, tables[c], positions[c] + 1))
  }

  /** Ready for its write: its last block is its own, and the next position goes there. */
  ghost predicate Fixed(bs: nat, st: Store, table: seq<nat>, pos: nat) {
    Own(bs, st, table, pos) && |table| == CeilDiv(pos + 1, bs)
  }

  lemma FixedIs(bs: nat, st: Store, table: seq<nat>, pos: nat)
    requires bs > 0
    ensures Fixed(bs, st, table, pos) <==> Own(bs, st, table, pos) && |table| == CeilDiv(pos + 1, bs)
  {
    hide Own, CeilDiv;
  }

  lemma PriorParts(bs: nat, st: Store, tables: seq<seq<nat>>, positions: seq<nat>, rest: multiset<nat>, n: nat)
    requires Prior(bs, st, tables, positions, rest, n)
    ensures |tables| == |positions| && n <= |tables| && BatchReady(bs, st, tables, rest)
    ensures forall c :: 0 <= c < n ==> Fixed(bs, st, tables[c], positions[c]) && Own(bs, st, tables[c], positions[c])
    ensures forall c :: n <= c < |tables| ==> Tidy(bs, tables[c], positions[c] + 1)
  {
    hide BatchReady, Own, Tidy, CeilDiv;
  }

  lemma MakePrior(bs: nat, st: Store, tables: seq<seq<nat>>, positions: seq<nat>, rest: multiset<nat>, n: nat)
    requires |tables| == |positions| && n <= |tables| && BatchReady(bs, st, tables, rest)
    requires forall c :: 0 <= c < n ==> Fixed(bs, st, tables[c], positions[c])
    requires forall c :: n <= c < |tables| ==> Tidy(bs, tables[c], positions[c] + 1)
    ensures Prior(bs, st, tables, positions, rest, n)
  {
    hide BatchReady, Fixed, Tidy;
  }

  /** What readying a sequence makes of its table. */
  lemma OneReadied(bs: nat, st: Store, table: seq<nat>, pos: nat, others: multiset<nat>)
    requires Ready(bs, st, table, others) && Tidy(bs, table, pos + 1) && ReadyOne(bs, st, table, pos).Written?
    ensures var w := ReadyOne(bs, st, table, pos);
      && Ready(bs, w.store, w.table, others) && |w.store.mem| == |st.mem|
      && Own(bs, w.store, w.table, pos) && |w.table| == CeilDiv(pos + 1, bs)
      && (forall j :: 0 <= j < pos / bs && j < |table| ==> w.table[j] == table[j])
  {
    hide *;
    ReadySize(bs, st, table, others);
    ReadyOneIs(bs, st, table, pos);
    ReadiedIs(bs, st, table, pos, pos + 1, others);
    var w := ReadyOne(bs, st, table, pos);
    PrivateParts(bs, w.store, w.table, pos, pos + 1, others);
    TidyReaches(bs, table, pos + 1);
    ReadiedSize(bs, st, table, pos, pos + 1, others);
    OwnIs(bs, w.store, w.table, pos);
  }

  lemma ReadyOneIs(bs: nat, st: Store, table: seq<nat>, pos: nat)
    requires bs > 0 && FreeListOk(st.pool)
    ensures ReadyOne(bs, st, table, pos) == Readied(bs, st, table, pos, pos + 1)
  {
    hide FreeListOk, Readied;
  }

  lemma ReadiedSize(bs: nat, st: Store, table: seq<nat>, start: nat, total: nat, others: multiset<nat>)
    requires Ready(bs, st, table, others) && bs > 0 && FreeListOk(st.pool)
    requires Readied(bs, st, table, start, total).Written?
    ensures |Readied(bs, st, table, start, total).store.mem| == |st.mem|
  {
    hide *;
    var g := EnsureCapacity(bs, st, table, total);
    Grown(bs, st, table, total, others);
    ReadiedUnfold(bs, st, table, start, total);
    PreparedFromIs(g, start / bs);
    Prepared(bs, g.store, g.table, start / bs, others);
  }

  lemma OwnIs(bs: nat, st: Store, table: seq<nat>, pos: nat)
    requires bs > 0 && Exclusive(bs, st, table, pos, pos + 1, pos / bs) && pos + 1 <= |table| * bs
    ensures Own(bs, st, table, pos)
  {
    PageBound(pos, |table|, bs);
  }

  /** A sequence's own block stays its own when another is made ready. */
  lemma OwnStays(bs: nat, st: Store, tables: seq<seq<nat>>, rest: multiset<nat>, s: nat, pos: nat, c: nat, q: nat)
    requires BatchReady(bs, st, tables, rest) && s < |tables| && c < |tables| && c != s && bs > 0
    requires Own(bs, st, tables[c], q) && ReadyOne(bs, st, tables[s], pos).Written?
    ensures var w, b := ReadyOne(bs, st, tables[s], pos), tables[c][q / bs];
      && Own(bs, w.store, tables[c], q)
      && b < |st.mem| == |w.store.mem| && w.store.mem[b] == st.mem[b]
  {
    var b := tables[c][q / bs];
    assert st.pool.ref[b] == 1;
    HeldBy(bs, st, tables, rest, c, q / bs);
    ReadyAt(bs, st, tables, rest, s);
    ReadyOneIs(bs, st, tables[s], pos);
    hide Readied, Ready, BatchReady, ReadyOne, Shaped, FreeListOk, InRange, AllBut;
    ReadiedLeaves(bs, st, tables[s], pos, pos + 1, AllBut(tables, s) + rest, b);
  }

  lemma NextPrior(bs: nat, st: Store, tables: seq<seq<nat>>, positions: seq<nat>, rest: multiset<nat>, n: nat)
    requires Prior(bs, st, tables, positions, rest, n) && n < |tables|
    requires ReadyOne(bs, st, tables[n], positions[n]).Written?
    ensures var w := ReadyOne(bs, st, tables[n], positions[n]);
      Prior(bs, w.store, tables[n := w.table], positions, rest, n + 1)
  {
    var w, after := ReadyOne(bs, st, tables[n], positions[n]),
      tables[n := ReadyOne(bs, st, tables[n], positions[n]).table];
    hide *;
    PriorParts(bs, st, tables, positions, rest, n);
    ReadyAt(bs, st, tables, rest, n);
    OneReadied(bs, st, tables[n], positions[n], AllBut(tables, n) + rest);
    BatchUpdate(bs, st, tables, rest, n, w.store, w.table);
    forall c | 0 <= c < n + 1
      ensures Fixed(bs, w.store, after[c], positions[c])
    {
      if c < n {
        OwnStays(bs, st, tables, rest, n, positions[n], c, positions[c]);
        FixedIs(bs, st, tables[c], positions[c]);
      }
      FixedIs(bs, w.store, after[c], positions[c]);
    }
    MakePrior(bs, w.store, after, positions, rest, n + 1);
  }

  lemma {:induction false} EachPrior(bs: nat, st: Store, tables: seq<seq<nat>>, positions: seq<nat>,
                                     rest: multiset<nat>, n: nat)
    requires Prior(bs, st, tables, positions, rest, 0) && n <= |tables|
    ensures ReadyEach(bs, st, tables, positions, n).Some? ==>
      var e := ReadyEach(bs, st, tables, positions, n).value;
      Prior(bs, e.store, e.tables, positions, rest, n)
    decreases n
  {
    if n > 0 {
      hide Prior, ReadyOne;
      EachPrior(bs, st, tables, positions, rest, n - 1);
      if ReadyEach(bs, st, tables, positions, n).Some? {
        var e := ReadyEach(bs, st, tables, positions, n - 1).value;
        NextPrior(bs, e.store, e.tables, positions, rest, n - 1);
      }
    }
  }

  // ---- puts of the ready, before or after the next is made ready

  /** A column put into one's own block. */
  ghost function PutIn(bs: nat, st: Store, table: seq<nat>, pos: nat, col: Column): Store {
    if Own(bs, st, table, pos) && table[pos / bs] < |st.mem| && pos % bs < |st.mem[table[pos / bs]]|
    then st.(mem := Slotted(st.mem, table[pos / bs], pos % bs, col)) else st
  }

  lemma PutInIs(bs: nat, st: Store, table: seq<nat>, pos: nat, col: Column, others: multiset<nat>)
    requires Ready(bs, st, table, others) && Own(bs, st, table, pos)
    ensures table[pos / bs] < |st.mem| && pos % bs < |st.mem[table[pos / bs]]|
    ensures PutIn(bs, st, table, pos, col) == st.(mem := Slotted(st.mem, table[pos / bs], pos % bs, col))
    ensures WriteOne(bs, st, table, pos, col) == Written(PutIn(bs, st, table, pos, col), table)
  {
    OwnPut(bs, st, table, pos, col, others);
    hide Ready, WriteOne, Slotted;
  }

  /** One put by a ready sequence. */
  lemma PriorPut(bs: nat, st: Store, tables: seq<seq<nat>>, positions: seq<nat>, rest: multiset<nat>, n: nat, k: nat,
                 col: Column)
    requires Prior(bs, st, tables, positions, rest, n) && k < n <= |tables| == |positions|
    ensures WriteOne(bs, st, tables[k], positions[k], col) ==
      Written(PutIn(bs, st, tables[k], positions[k], col), tables[k])
    ensures Prior(bs, PutIn(bs, st, tables[k], positions[k], col), tables, positions, rest, n)
    ensures PutIn(bs, st, tables[k], positions[k], col).pool == st.pool
  {
    hide *;
    PriorParts(bs, st, tables, positions, rest, n);
    ReadyAt(bs, st, tables, rest, k);
    OwnParts(bs, st, tables[k], positions[k]);
    PutInIs(bs, st, tables[k], positions[k], col, AllBut(tables, k) + rest);
    var b, i := tables[k][positions[k] / bs], positions[k] % bs;
    PutReady(bs, st, tables, rest, b, i, col);
    var st' := PutIn(bs, st, tables[k], positions[k], col);
    SamePool(bs, st, st', tables, positions, n);
    MakePrior(bs, st', tables, positions, rest, n);
  }

  lemma SamePool(bs: nat, st: Store, st': Store, tables: seq<seq<nat>>, positions: seq<nat>, n: nat)
    requires st'.pool == st.pool && n <= |tables| == |positions|
    requires forall c :: 0 <= c < n ==> Fixed(bs, st, tables[c], positions[c])
    ensures forall c :: 0 <= c < n ==> Fixed(bs, st', tables[c], positions[c])
  {
    hide CeilDiv;
  }

  /** k puts on the state before sequence n is ready, and on the state after: the one made ready is the other. */
  ghost predicate Parallel(bs: nat, e: Each, f: Each, tables: seq<seq<nat>>, positions: seq<nat>, n: nat, k: nat,
                           t: seq<nat>) {
    && n < |tables| == |positions| && k <= n && e.tables == tables && f.tables == tables[n := t]
    && ReadyOne(bs, e.store, tables[n], positions[n]) == Written(f.store, t)
  }

  lemma {:induction false} PutsCommuteReady(bs: nat, st: Store, tables: seq<seq<nat>>, positions: seq<nat>,
                                            rest: multiset<nat>, n: nat, cols: seq<Column>, k: nat)
    returns (e: Each, f: Each)
    requires Prior(bs, st, tables, positions, rest, n) && k <= n < |tables| == |positions| && k <= |cols|
    requires ReadyOne(bs, st, tables[n], positions[n]).Written?
    ensures var w := ReadyOne(bs, st, tables[n], positions[n]);
      && WriteEach(bs, st, tables, positions, cols, k) == Some(e)
      && WriteEach(bs, w.store, tables[n := w.table], positions, cols, k) == Some(f)
      && Parallel(bs, e, f, tables, positions, n, k, w.table)
    ensures Prior(bs, e.store, tables, positions, rest, n)
    decreases k
  {
    hide *;
    var w := ReadyOne(bs, st, tables[n], positions[n]);
    if k == 0 {
      e, f := Each(st, tables), Each(w.store, tables[n := w.table]);
      NoWrites(bs, st, tables, positions, cols);
      NoWrites(bs, w.store, tables[n := w.table], positions, cols);
      ParallelIs(bs, e, f, tables, positions, n, 0, w.table);
    } else {
      var c := k - 1;
      var e0, f0 := PutsCommuteReady(bs, st, tables, positions, rest, n, cols, c);
      ParallelIs(bs, e0, f0, tables, positions, n, c, w.table);
      EachStep(bs, st, tables, positions, cols, c, e0);
      EachStep(bs, w.store, tables[n := w.table], positions, cols, c, f0);
      NextPrior(bs, e0.store, tables, positions, rest, n);
      PriorPut(bs, e0.store, tables, positions, rest, n, c, cols[c]);
      PriorPut(bs, f0.store, tables[n := w.table], positions, rest, n + 1, c, cols[c]);
      e := Each(WriteOne(bs, e0.store, tables[c], positions[c], cols[c]).store, tables);
      f := Each(WriteOne(bs, f0.store, tables[c], positions[c], cols[c]).store, tables[n := w.table]);
      SameTables(tables, n, w.table, c);
      OnePutEither(bs, e0.store, tables, positions, rest, n, c, cols[c], f0.store, w.table);
      ParallelIs(bs, e, f, tables, positions, n, k, w.table);
    }
  }

  lemma SameTables(tables: seq<seq<nat>>, n: nat, t: seq<nat>, c: nat)
    requires c < n < |tables|
    ensures tables[c := tables[c]] == tables && tables[n := t][c] == tables[c]
    ensures tables[n := t][c := tables[c]] == tables[n := t] && |tables[n := t]| == |tables|
    ensures tables[n := t][n] == t
  {
  }

  lemma ParallelIs(bs: nat, e: Each, f: Each, tables: seq<seq<nat>>, positions: seq<nat>, n: nat, k: nat, t: seq<nat>)
    requires n < |tables| == |positions| && k <= n
    ensures Parallel(bs, e, f, tables, positions, n, k, t) <==>
      && e.tables == tables && f.tables == tables[n := t]
      && ReadyOne(bs, e.store, tables[n], positions[n]) == Written(f.store, t)
  {
    hide ReadyOne;
  }

  lemma NoWrites(bs: nat, st: Store, tables: seq<seq<nat>>, positions: seq<nat>, cols: seq<Column>)
    requires |tables| == |positions|
    ensures WriteEach(bs, st, tables, positions, cols, 0) == Some(Each(st, tables))
  {
  }

  /** A put by sequence c, on the state before and on the state after. */
  lemma OnePutEither(bs: nat, st: Store, tables: seq<seq<nat>>, positions: seq<nat>, rest: multiset<nat>, n: nat,
                     c: nat, col: Column, st': Store, t: seq<nat>)
    requires Prior(bs, st, tables, positions, rest, n) && c < n < |tables| == |positions|
    requires ReadyOne(bs, st, tables[n], positions[n]) == Written(st', t)
    requires WriteOne(bs, st, tables[c], positions[c], col).Written?
    requires WriteOne(bs, st', tables[c], positions[c], col).Written?
    ensures ReadyOne(bs, WriteOne(bs, st, tables[c], positions[c], col).store, tables[n], positions[n]) ==
      Written(WriteOne(bs, st', tables[c], positions[c], col).store, t)
  {
    hide *;
    PriorParts(bs, st, tables, positions, rest, n);
    NextPrior(bs, st, tables, positions, rest, n);
    PriorParts(bs, st', tables[n := t], positions, rest, n + 1);
    SameTables(tables, n, t, c);
    PriorPut(bs, st, tables, positions, rest, n, c, col);
    PriorPut(bs, st', tables[n := t], positions, rest, n + 1, c, col);
    OwnParts(bs, st, tables[c], positions[c]);
    OwnStays(bs, st, tables, rest, n, positions[n], c, positions[c]);
    var b, i := tables[c][positions[c] / bs], positions[c] % bs;
    HeldBy(bs, st, tables, rest, c, positions[c] / bs);
    ReadyAt(bs, st, tables, rest, c);
    PutInIs(bs, st, tables[c], positions[c], col, AllBut(tables, c) + rest);
    ReadyAt(bs, st', tables[n := t], rest, c);
    PutInIs(bs, st', tables[c], positions[c], col, AllBut(tables[n := t], c) + rest);
    ReadyAt(bs, st, tables, rest, n);
    ReadyParts(bs, st, tables[n], AllBut(tables, n) + rest);
    SlottedIs(st.mem, b, i, col);
    SlottedIs(st'.mem, b, i, col);
    var x := st.mem[b][i := col];
    ReadiedFrame(bs, st, tables[n], positions[n], positions[n] + 1, AllBut(tables, n) + rest, b, x);
    ReadyOneIs(bs, st, tables[n], positions[n]);
    ReadyOneIs(bs, st.(mem := st.mem[b := x]), tables[n], positions[n]);
  }

  lemma OwnParts(bs: nat, st: Store, table: seq<nat>, pos: nat)
    requires Own(bs, st, table, pos)
    ensures bs > 0 && pos / bs < |table| && pos < |table| * bs
    ensures table[pos / bs] < |st.pool.ref| && st.pool.ref[table[pos / bs]] == 1
  {
  }

  /** All writes, and those on the batch made ready, are the same; if it cannot be made ready they fail. */
  lemma {:induction false} EachIsReady(bs: nat, st: Store, tables: seq<seq<nat>>, positions: seq<nat>,
                                       rest: multiset<nat>, cols: seq<Column>, n: nat)
    requires Prior(bs, st, tables, positions, rest, 0) && n <= |tables| == |positions| && n <= |cols|
    ensures match ReadyEach(bs, st, tables, positions, n)
      case None => WriteEach(bs, st, tables, positions, cols, n) == None
      case Some(r) =>
        && WriteEach(bs, st, tables, positions, cols, n) == WriteEach(bs, r.store, r.tables, positions, cols, n)
        && WriteEach(bs, st, tables, positions, cols, n).Some?
        && WriteEach(bs, st, tables, positions, cols, n).value.tables == r.tables
    decreases n
  {
    hide *;
    if n == 0 {
      NoWrites(bs, st, tables, positions, cols);
      NobodyReady(bs, st, tables, positions);
    } else {
      var c := n - 1;
      EachIsReady(bs, st, tables, positions, rest, cols, c);
      ReadyStep(bs, st, tables, positions, c);
      NoneStays(bs, st, tables, positions, cols, c);
      EachPrior(bs, st, tables, positions, rest, c);
      if ReadyEach(bs, st, tables, positions, c).Some? {
        LastIsReady(bs, st, tables, positions, rest, cols, c);
      }
    }
  }

  lemma NobodyReady(bs: nat, st: Store, tables: seq<seq<nat>>, positions: seq<nat>)
    requires |tables| == |positions|
    ensures ReadyEach(bs, st, tables, positions, 0) == Some(Each(st, tables))
  {
  }

  lemma ReadyStep(bs: nat, st: Store, tables: seq<seq<nat>>, positions: seq<nat>, n: nat)
    requires n < |tables| == |positions|
    ensures match ReadyEach(bs, st, tables, positions, n)
      case None => ReadyEach(bs, st, tables, positions, n + 1) == None
      case Some(e) =>
        var w := ReadyOne(bs, e.store, e.tables[n], positions[n]);
        ReadyEach(bs, st, tables, positions, n + 1) ==
          if w.OutOfBlocks? then None else Some(Each(w.store, e.tables[n := w.table]))
  {
    hide ReadyOne;
  }

  lemma NoneStays(bs: nat, st: Store, tables: seq<seq<nat>>, positions: seq<nat>, cols: seq<Column>, n: nat)
    requires n < |tables| == |positions| && n < |cols|
    ensures WriteEach(bs, st, tables, positions, cols, n) == None ==>
      WriteEach(bs, st, tables, positions, cols, n + 1) == None
  {
    hide WriteOne;
  }

  lemma LastIsReady(bs: nat, st: Store, tables: seq<seq<nat>>, positions: seq<nat>, rest: multiset<nat>,
                    cols: seq<Column>, n: nat)
    requires n < |tables| == |positions| && n < |cols| && ReadyEach(bs, st, tables, positions, n).Some?
    requires var r := ReadyEach(bs, st, tables, positions, n).value;
      && Prior(bs, r.store, r.tables, positions, rest, n)
      && WriteEach(bs, st, tables, positions, cols, n) == WriteEach(bs, r.store, r.tables, positions, cols, n)
      && WriteEach(bs, st, tables, positions, cols, n).Some?
      && WriteEach(bs, st, tables, positions, cols, n).value.tables == r.tables
    ensures match ReadyEach(bs, st, tables, positions, n + 1)
      case None => WriteEach(bs, st, tables, positions, cols, n + 1) == None
      case Some(r) =>
        && WriteEach(bs, st, tables, positions, cols, n + 1) ==
             WriteEach(bs, r.store, r.tables, positions, cols, n + 1)
        && WriteEach(bs, st, tables, positions, cols, n + 1).Some?
        && WriteEach(bs, st, tables, positions, cols, n + 1).value.tables == r.tables
  {
    hide *;
    var r := ReadyEach(bs, st, tables, positions, n).value;
    var e := WriteEach(bs, st, tables, positions, cols, n).value;
    ReadyStep(bs, st, tables, positions, n);
    EachStep(bs, st, tables, positions, cols, n, e);
    PutsPrior(bs, r.store, r.tables, positions, rest, n, cols, n);
    PriorParts(bs, e.store, r.tables, positions, rest, n);
    ReadyAt(bs, e.store, r.tables, rest, n);
    var others := AllBut(r.tables, n) + rest;
    ReadyParts(bs, e.store, r.tables[n], others);
    OneWriteReadied(bs, e.store, r.tables[n], positions[n], cols[n], others);
    SameOutcome(bs, r.store, r.tables, positions, rest, n, cols, e);
    var w := ReadyOne(bs, r.store, r.tables[n], positions[n]);
    if w.Written? {
      var e1, f := PutsCommuteReady(bs, r.store, r.tables, positions, rest, n, cols, n);
      ParallelIs(bs, e1, f, r.tables, positions, n, n, w.table);
      EachStep(bs, w.store, r.tables[n := w.table], positions, cols, n, f);
      NextPrior(bs, e.store, r.tables, positions, rest, n);
      PriorPut(bs, f.store, r.tables[n := w.table], positions, rest, n + 1, n, cols[n]);
      assert r.tables[n := w.table][n := w.table] == r.tables[n := w.table];
    }
  }

  lemma OneWriteReadied(bs: nat, st: Store, table: seq<nat>, pos: nat, col: Column, others: multiset<nat>)
    requires Ready(bs, st, table, others) && Tidy(bs, table, pos + 1)
    ensures var w := ReadyOne(bs, st, table, pos);
      if w.OutOfBlocks? then WriteOne(bs, st, table, pos, col).OutOfBlocks?
      else WriteOne(bs, st, table, pos, col) == WriteOne(bs, w.store, w.table, pos, col)
  {
    hide *;
    ReadySize(bs, st, table, others);
    ReadyParts(bs, st, table, others);
    ReadyOneIs(bs, st, table, pos);
    WriteReadied(bs, st, table, pos, [col], others);
    WriteOneIs(bs, st, table, pos, col);
    var w := ReadyOne(bs, st, table, pos);
    if w.Written? {
      WriteOneIs(bs, w.store, w.table, pos, col);
    }
  }

  /** Puts leave the ready ready. */
  lemma {:induction false} PutsPrior(bs: nat, st: Store, tables: seq<seq<nat>>, positions: seq<nat>,
                                     rest: multiset<nat>, n: nat, cols: seq<Column>, k: nat)
    requires Prior(bs, st, tables, positions, rest, n) && k <= n <= |tables| == |positions| && k <= |cols|
    ensures WriteEach(bs, st, tables, positions, cols, k).Some?
    ensures var e := WriteEach(bs, st, tables, positions, cols, k).value;
      Prior(bs, e.store, tables, positions, rest, n) && e.tables == tables && e.store.pool == st.pool
    decreases k
  {
    hide *;
    if k == 0 {
      NoWrites(bs, st, tables, positions, cols);
    } else {
      PutsPrior(bs, st, tables, positions, rest, n, cols, k - 1);
      var e := WriteEach(bs, st, tables, positions, cols, k - 1).value;
      EachStep(bs, st, tables, positions, cols, k - 1, e);
      PriorPut(bs, e.store, tables, positions, rest, n, k - 1, cols[k - 1]);
      assert tables[k - 1 := tables[k - 1]] == tables;
    }
  }

  /** Whether the next can be made ready does not depend on contents. */
  lemma SameOutcome(bs: nat, st: Store, tables: seq<seq<nat>>, positions: seq<nat>, rest: multiset<nat>, n: nat,
                    cols: seq<Column>, e: Each)
    requires Prior(bs, st, tables, positions, rest, n) && n < |tables| == |positions| && n <= |cols|
    requires WriteEach(bs, st, tables, positions, cols, n) == Some(e)
    ensures ReadyOne(bs, st, tables[n], positions[n]).OutOfBlocks? <==>
      ReadyOne(bs, e.store, tables[n], positions[n]).OutOfBlocks?
  {
    hide *;
    PutsPrior(bs, st, tables, positions, rest, n, cols, n);
    PriorParts(bs, st, tables, positions, rest, n);
    PriorParts(bs, e.store, tables, positions, rest, n);
    var others := AllBut(tables, n) + rest;
    ReadyAt(bs, st, tables, rest, n);
    ReadyAt(bs, e.store, tables, rest, n);
    ReadyOneIs(bs, st, tables[n], positions[n]);
    ReadyOneIs(bs, e.store, tables[n], positions[n]);
    ReadiedExactly(bs, st, tables[n], positions[n], positions[n] + 1, others);
    ReadiedExactly(bs, e.store, tables[n], positions[n], positions[n] + 1, others);
  }

  // ---- a batch made ready is sound

  function Pages(bs: nat, positions: seq<nat>): (from: seq<nat>)
    requires bs > 0
    ensures |from| == |positions|
  {
    seq(|positions|, c requires 0 <= c < |positions| => positions[c] / bs)
  }

  lemma {:induction false} NoNeed(bs: nat, tables: seq<seq<nat>>, positions: seq<nat>, n: nat)
    requires bs > 0 && n <= |tables| == |positions|
    requires forall c :: 0 <= c < n ==> positions[c] + 1 <= |tables[c]| * bs
    ensures TotalNeed(bs, tables, positions, n) == 0
    decreases n
  {
    if n > 0 {
      NoNeed(bs, tables, positions, n - 1);
      CeilDivFits(positions[n - 1] + 1, bs, |tables[n - 1]|);
    }
  }

  lemma OneOwn(bs: nat, st: Store, table: seq<nat>, pos: nat)
    requires Own(bs, st, table, pos) && |table| == CeilDiv(pos + 1, bs)
    ensures PrivateFrom(st.pool, table, pos / bs) && pos / bs * bs <= pos
  {
    LastPage(bs, pos, |table|);
  }

  lemma PriorIsSound(bs: nat, st: Store, tables: seq<seq<nat>>, positions: seq<nat>, rest: multiset<nat>)
    requires Prior(bs, st, tables, positions, rest, |tables|) && bs > 0
    ensures Sound(bs, st, tables, positions, Pages(bs, positions), rest)
  {
    NoNeed(bs, tables, positions, |tables|);
    hide Shaped, FreeListOk, InRange, Counts, All, TotalNeed, PrivateFrom, Own, CeilDiv;
    forall c | 0 <= c < |tables|
      ensures PrivateFrom(st.pool, tables[c], Pages(bs, positions)[c]) && Pages(bs, positions)[c] * bs <= positions[c]
      ensures positions[c] <= |tables[c]| * bs
    {
      OneOwn(bs, st, tables[c], positions[c]);
      OwnParts(bs, st, tables[c], positions[c]);
    }
  }

  /** Rewriting one sequence's position, whatever blocks were shared at first. */
  lemma EachRewrite(bs: nat, st: Store, tables: seq<seq<nat>>, positions: seq<nat>, rest: multiset<nat>,
                    cols: seq<Column>, s: nat, y: Column, e: Each)
    requires Prior(bs, st, tables, positions, rest, 0) && s < |tables| == |positions| == |cols| && bs > 0
    requires WriteEach(bs, st, tables, positions, cols, |tables|) == Some(e)
    ensures WriteOne(bs, e.store, e.tables[s], positions[s], y).Written?
    ensures WriteEach(bs, st, tables, positions, cols[s := y], |tables|) ==
      Some(Each(WriteOne(bs, e.store, e.tables[s], positions[s], y).store, e.tables))
    ensures WriteOne(bs, e.store, e.tables[s], positions[s], y).table == e.tables[s]
    ensures Sound(bs, e.store, e.tables, positions, Pages(bs, positions), rest)
  {
    hide *;
    var n, from := |tables|, Pages(bs, positions);
    EachIsReady(bs, st, tables, positions, rest, cols, n);
    EachIsReady(bs, st, tables, positions, rest, cols[s := y], n);
    EachPrior(bs, st, tables, positions, rest, n);
    var r := ReadyEach(bs, st, tables, positions, n).value;
    PriorIsSound(bs, r.store, r.tables, positions, rest);
    EachUpdate(bs, r.store, r.tables, positions, cols, n, from, rest, s, y, e);
    var e' := EachSound(bs, r.store, r.tables, positions, cols, n, from, rest);
  }

  lemma EachIsSound(bs: nat, st: Store, tables: seq<seq<nat>>, positions: seq<nat>, rest: multiset<nat>,
                    cols: seq<Column>, e: Each)
    requires Prior(bs, st, tables, positions, rest, 0) && |tables| == |positions| == |cols| && bs > 0
    requires WriteEach(bs, st, tables, positions, cols, |tables|) == Some(e)
    ensures Sound(bs, e.store, e.tables, positions, Pages(bs, positions), rest)
  {
    hide *;
    var n, from := |tables|, Pages(bs, positions);
    EachIsReady(bs, st, tables, positions, rest, cols, n);
    EachPrior(bs, st, tables, positions, rest, n);
    var r := ReadyEach(bs, st, tables, positions, n).value;
    PriorIsSound(bs, r.store, r.tables, positions, rest);
    var e' := EachSound(bs, r.store, r.tables, positions, cols, n, from, rest);
  }

  // ---- sequences fed alone

  function Picks(m: Model, views: seq<seq<Column>>, toks: seq<Token>, n: nat): (outs: seq<Token>)
    requires n <= |views| && n <= |toks|
    ensures |outs| == n
  {
    seq(n, c requires 0 <= c < n => m.pick(views[c], toks[c]))
  }

  /** Between two writes: whoever has not written is as before, and everybody reads its old view. */
  ghost predicate Reading(bs: nat, e: Each, tables: seq<seq<nat>>, positions: seq<nat>, views: seq<seq<Column>>,
                          rest: multiset<nat>, n: nat) {
    && |e.tables| == |tables| == |positions| == |views| && BatchReady(bs, e.store, e.tables, rest)
    && (forall c :: n <= c < |tables| ==> e.tables[c] == tables[c])
    && forall c :: 0 <= c < |tables| ==> Reads(bs, e.store, e.tables[c], positions[c], views[c])
  }

  ghost predicate Reads(bs: nat, st: Store, table: seq<nat>, pos: nat, view: seq<Column>) {
    Shaped(bs, st) && InRange(st, table) && pos <= |table| * bs && Gather(bs, st, table, pos) == view
  }

  lemma ReadsIs(bs: nat, st: Store, table: seq<nat>, pos: nat, view: seq<Column>)
    requires Shaped(bs, st) && InRange(st, table) && pos <= |table| * bs
    ensures Reads(bs, st, table, pos, view) <==> Gather(bs, st, table, pos) == view
  {
    hide Shaped, InRange, Gather;
  }

  lemma ReadingAt(bs: nat, e: Each, tables: seq<seq<nat>>, positions: seq<nat>, views: seq<seq<Column>>,
                  rest: multiset<nat>, n: nat, c: nat)
    requires Reading(bs, e, tables, positions, views, rest, n) && c < |tables|
    ensures |e.tables| == |tables| == |positions| == |views| && BatchReady(bs, e.store, e.tables, rest)
    ensures n <= c ==> e.tables[c] == tables[c]
    ensures Shaped(bs, e.store) && InRange(e.store, e.tables[c]) && positions[c] <= |e.tables[c]| * bs
    ensures Gather(bs, e.store, e.tables[c], positions[c]) == views[c]
  {
    hide BatchReady, Shaped, InRange, Gather;
    assert Reads(bs, e.store, e.tables[c], positions[c], views[c]);
  }

  /** One write keeps the size of memory and what the sequence relies on. */
  lemma OneWriteReady(bs: nat, st: Store, table: seq<nat>, pos: nat, col: Column, others: multiset<nat>)
    requires Ready(bs, st, table, others) && Tidy(bs, table, pos + 1) && WriteOne(bs, st, table, pos, col).Written?
    ensures var w := WriteOne(bs, st, table, pos, col);
      Ready(bs, w.store, w.table, others) && |w.store.mem| == |st.mem| && pos < |w.table| * bs
  {
    hide *;
    OneWriteReadied(bs, st, table, pos, col, others);
    OneReadied(bs, st, table, pos, others);
    var r := ReadyOne(bs, st, table, pos);
    OwnParts(bs, r.store, r.table, pos);
    OwnPut(bs, r.store, r.table, pos, col, others);
    var b, i := r.table[pos / bs], pos % bs;
    SlottedIs(r.store.mem, b, i, col);
    ReadyParts(bs, r.store, r.table, others);
    ReadyFrame(bs, r.store, r.table, others, b, r.store.mem[b][i := col]);
  }

  lemma WriterStillReads(bs: nat, st: Store, table: seq<nat>, pos: nat, col: Column, others: multiset<nat>)
    requires Ready(bs, st, table, others) && WriteOne(bs, st, table, pos, col).Written? && pos <= |table| * bs
    requires Shaped(bs, st) && InRange(st, table)
    ensures var w := WriteOne(bs, st, table, pos, col);
      && Shaped(bs, w.store) && InRange(w.store, w.table) && pos <= |w.table| * bs
      && Gather(bs, w.store, w.table, pos) == Gather(bs, st, table, pos) && Kept(st, w.store, others)
  {
    hide *;
    ReadyParts(bs, st, table, others);
    WriteOneIs(bs, st, table, pos, col);
    WriteIsolated(bs, st, table, pos, [col], others);
    var w := WriteOne(bs, st, table, pos, col);
    GatherPrefix(bs, w.store, w.table, pos, pos + 1);
    OneLonger(Gather(bs, st, table, pos), col);
    GatherLength(bs, st, table, pos);
  }

  lemma OneLonger(view: seq<Column>, col: Column)
    ensures (view + [col])[..|view|] == view
  {
  }

  lemma OtherStillReads(bs: nat, st: Store, st': Store, tables: seq<seq<nat>>, rest: multiset<nat>, s: nat, c: nat,
                        n: nat)
    requires BatchReady(bs, st, tables, rest) && s < |tables| && c < |tables| && c != s
    requires Kept(st, st', AllBut(tables, s) + rest) && Shaped(bs, st') && |st'.mem| == |st.mem|
    requires Shaped(bs, st) && InRange(st, tables[c]) && n <= |tables[c]| * bs
    ensures InRange(st', tables[c]) && Gather(bs, st', tables[c], n) == Gather(bs, st, tables[c], n)
  {
    hide Shaped, Gather, AllBut, All, BatchReady, Kept;
    OthersHold(tables, s, c);
    KeptBlocks(st, st', AllBut(tables, s), rest, tables[c]);
    SameBlocksSameView(bs, st, st', tables[c], n);
  }

  lemma NextReading(bs: nat, e: Each, tables: seq<seq<nat>>, positions: seq<nat>, views: seq<seq<Column>>,
                    rest: multiset<nat>, n: nat, col: Column)
    requires Reading(bs, e, tables, positions, views, rest, n) && n < |tables| == |positions| == |e.tables|
    requires Tidy(bs, tables[n], positions[n] + 1)
    requires WriteOne(bs, e.store, e.tables[n], positions[n], col).Written?
    ensures var w := WriteOne(bs, e.store, e.tables[n], positions[n], col);
      Reading(bs, Each(w.store, e.tables[n := w.table]), tables, positions, views, rest, n + 1)
  {
    var w, others := WriteOne(bs, e.store, e.tables[n], positions[n], col), AllBut(e.tables, n) + rest;
    var after := e.tables[n := w.table];
    ReadingAt(bs, e, tables, positions, views, rest, n, n);
    hide BatchReady, Shaped, InRange, Gather, WriteOne, AllBut, Tidy, Ready, Kept, Reads;
    ReadyAt(bs, e.store, e.tables, rest, n);
    OneWriteReady(bs, e.store, e.tables[n], positions[n], col, others);
    WriterStillReads(bs, e.store, e.tables[n], positions[n], col, others);
    BatchUpdate(bs, e.store, e.tables, rest, n, w.store, w.table);
    forall c | 0 <= c < |tables|
      ensures Reads(bs, w.store, after[c], positions[c], views[c])
    {
      ReadingAt(bs, e, tables, positions, views, rest, n, c);
      if c != n {
        OtherStillReads(bs, e.store, w.store, e.tables, rest, n, c, positions[c]);
      }
      ReadsIs(bs, w.store, after[c], positions[c], views[c]);
    }
  }

  /** Feeding the sequences alone, in turn, is writing each its own column, and fails when that fails. */
  lemma {:induction false} InferEachIs(bs: nat, m: Model, st: Store, tables: seq<seq<nat>>, positions: seq<nat>,
                                       toks: seq<Token>, views: seq<seq<Column>>, cols: seq<Column>, n: nat,
                                       rest: multiset<nat>)
    requires n <= |tables| == |positions| == |toks| == |views| == |cols| && Tidies(bs, tables, positions)
    requires Reading(bs, Each(st, tables), tables, positions, views, rest, 0)
    requires forall c :: 0 <= c < |tables| ==> cols[c] == m.col(views[c], toks[c])
    ensures match WriteEach(bs, st, tables, positions, cols, n)
      case None => InferEach(bs, m, st, tables, positions, toks, n) == None
      case Some(e) =>
        && InferEach(bs, m, st, tables, positions, toks, n) == Some(Fed(e.store, e.tables, Picks(m, views, toks, n)))
        && Reading(bs, e, tables, positions, views, rest, n)
    decreases n
  {
    hide *;
    if n == 0 {
      NobodyYet(bs, m, st, tables, positions, cols, toks);
      NoPicks(m, views, toks);
    } else {
      var c := n - 1;
      InferEachIs(bs, m, st, tables, positions, toks, views, cols, c, rest);
      NoneStays(bs, st, tables, positions, cols, c);
      NoneFed(bs, m, st, tables, positions, toks, c);
      var before := WriteEach(bs, st, tables, positions, cols, c);
      if before.Some? {
        var e, outs := before.value, Picks(m, views, toks, c);
        EachStep(bs, st, tables, positions, cols, c, e);
        InferStep(bs, m, st, tables, positions, toks, c, Fed(e.store, e.tables, outs));
        ReadingAt(bs, e, tables, positions, views, rest, c, c);
        ReadyAt(bs, e.store, e.tables, rest, c);
        InferOne(bs, m, e.store, e.tables[c], positions[c], toks[c]);
        TidyAt(bs, tables, positions, c);
        if WriteOne(bs, e.store, e.tables[c], positions[c], cols[c]).Written? {
          NextReading(bs, e, tables, positions, views, rest, c, cols[c]);
          OnePick(m, views, toks, c);
        }
      }
    }
  }

  lemma TidyAt(bs: nat, tables: seq<seq<nat>>, positions: seq<nat>, c: nat)
    requires Tidies(bs, tables, positions) && c < |tables|
    ensures |tables| == |positions| && Tidy(bs, tables[c], positions[c] + 1)
  {
    hide Tidy;
  }

  lemma NoPicks(m: Model, views: seq<seq<Column>>, toks: seq<Token>)
    ensures Picks(m, views, toks, 0) == []
  {
  }

  lemma OnePick(m: Model, views: seq<seq<Column>>, toks: seq<Token>, n: nat)
    requires n < |views| && n < |toks|
    ensures Picks(m, views, toks, n + 1) == Picks(m, views, toks, n) + [m.pick(views[n], toks[n])]
  {
  }

  lemma NoneFed(bs: nat, m: Model, st: Store, tables: seq<seq<nat>>, positions: seq<nat>, toks: seq<Token>, n: nat)
    requires n < |tables| == |positions| == |toks|
    ensures InferEach(bs, m, st, tables, positions, toks, n) == None ==>
      InferEach(bs, m, st, tables, positions, toks, n + 1) == None
  {
    hide Infer;
  }

  // ---- when a batch can be made ready

  ghost predicate AllInPool(p: Pool, tables: seq<seq<nat>>) {
    forall c :: 0 <= c < |tables| ==> InPool(p, tables[c])
  }

  /** The blocks the first n sequences add or copy, and the counts they leave on the blocks there were. */
  datatype Draw = Draw(blocks: nat, ref: seq<nat>)

  /** The block the next position goes to is there and shared. */
  predicate Shares(bs: nat, ref: seq<nat>, table: seq<nat>, pos: nat) {
    && bs > 0 && pos / bs < |table| && table[pos / bs] < |ref| && ref[table[pos / bs]] > 1
  }

  function Room(bs: nat, table: seq<nat>, pos: nat): nat { if bs > 0 then BlocksNeeded(bs, table, pos + 1) else 0 }

  function Taken(bs: nat, ref: seq<nat>, table: seq<nat>, pos: nat): seq<nat> {
    if Shares(bs, ref, table, pos) then ref[table[pos / bs] := ref[table[pos / bs]] - 1] else ref
  }

  function OneDraw(bs: nat, d: Draw, table: seq<nat>, pos: nat): Draw {
    Draw(d.blocks + Room(bs, table, pos) + (if Shares(bs, d.ref, table, pos) then 1 else 0), Taken(bs, d.ref, table,
      pos))
  }

  function Drawn(bs: nat, p: Pool, tables: seq<seq<nat>>, positions: seq<nat>, n: nat): Draw
    requires n <= |tables| == |positions|
    decreases n
  {
    if n == 0 then Draw(0, p.ref)
    else OneDraw(bs, Drawn(bs, p, tables, positions, n - 1), tables[n - 1], positions[n - 1])
  }

  /** One sequence's cost in a tidy batch: the room it needs, and one block if it shares its last. */
  lemma TidyCost(bs: nat, p: Pool, table: seq<nat>, pos: nat)
    requires bs > 0 && InPool(p, table) && Tidy(bs, table, pos + 1)
    ensures Cost(bs, p, table, pos, pos + 1) ==
      Room(bs, table, pos) + if Shares(bs, p.ref, table, pos) then 1 else 0
  {
    LastIsHere(bs, table, pos);
    var i := pos / bs;
    CopiesStep(p.ref, table, i);
    if i < |table| {
      if p.ref[table[i]] > 1 {
        CopiesStep(p.ref[table[i] := p.ref[table[i]] - 1], table, i + 1);
      } else {
        CopiesStep(p.ref, table, i + 1);
      }
    }
    hide BlocksNeeded, Copies;
  }

  lemma LastIsHere(bs: nat, table: seq<nat>, pos: nat)
    requires Tidy(bs, table, pos + 1)
    ensures bs > 0 && |table| <= pos / bs + 1 && CeilDiv(pos + 1, bs) == pos / bs + 1
  {
    var q := pos / bs;
    assert pos == q * bs + pos % bs;
    assert (q + 1) * bs == q * bs + bs;
    CeilDivUnique(pos + 1, bs, q + 1);
  }

  /** What making sequence s ready does to the count of another's block: one less if it was shared and copied. */
  /** Block b is the one the next position goes to. */
  predicate Next(bs: nat, table: seq<nat>, pos: nat, b: nat) {
    bs > 0 && pos / bs < |table| && table[pos / bs] == b
  }

  lemma OtherCount(bs: nat, st: Store, tables: seq<seq<nat>>, rest: multiset<nat>, s: nat, pos: nat, b: nat,
                   c: nat, j: nat, w: Written)
    requires BatchReady(bs, st, tables, rest) && s < |tables| && c < |tables| && c != s
    requires j < |tables[c]| && tables[c][j] == b
    requires Tidy(bs, tables[s], pos + 1) && ReadyOne(bs, st, tables[s], pos) == w && w.Written?
    requires pos <= |tables[s]| * bs
    ensures OneLess(st.pool, w.store.pool, b, Next(bs, tables[s], pos, b))
    ensures Next(bs, tables[s], pos, b) ==> b < |st.pool.ref| && st.pool.ref[b] > 1
  {
    hide *;
    var t, others := tables[s], AllBut(tables, s) + rest;
    HeldBy(bs, st, tables, rest, c, j);
    ReadyAt(bs, st, tables, rest, s);
    LastIsHere(bs, t, pos);
    PageUpTo(bs, pos, |t|);
    OneReadied(bs, st, t, pos, others);
    OwnParts(bs, w.store, w.table, pos);
    OthersHold(tables, s, c);
    assert b in AllBut(tables, s);
    Recount(bs, st, w, t, pos / bs, others, b);
    NextIs(bs, t, pos, b);
  }

  lemma PageUpTo(bs: nat, pos: nat, pages: nat)
    requires bs > 0 && pos <= pages * bs
    ensures pos / bs <= pages
  {
    assert pos / bs * bs <= pos;
    if pos / bs > pages {
      MulMono(pages + 1, pos / bs, bs);
    }
  }

  ghost predicate OneLess(p: Pool, p': Pool, b: nat, less: bool) {
    b < |p.ref| && b < |p'.ref| && p.ref[b] == p'.ref[b] + if less then 1 else 0
  }

  lemma NextIs(bs: nat, table: seq<nat>, pos: nat, b: nat)
    requires bs > 0
    ensures Next(bs, table, pos, b) <==> pos / bs < |table| && table[pos / bs] == b
  {
  }

  /** The counts of a block of somebody else's, before and after. */
  lemma Recount(bs: nat, st: Store, w: Written, t: seq<nat>, i: nat, others: multiset<nat>, b: nat)
    requires Ready(bs, st, t, others) && w.Written? && Ready(bs, w.store, w.table, others)
    requires |w.store.mem| == |st.mem| && b < |st.mem| && others[b] > 0
    requires i < |w.table| && w.table[i] < |w.store.pool.ref| && w.store.pool.ref[w.table[i]] == 1
    requires |w.table| == i + 1 && i <= |t| <= i + 1 && forall j :: 0 <= j < i && j < |t| ==> w.table[j] == t[j]
    ensures OneLess(st.pool, w.store.pool, b, i < |t| && t[i] == b)
    ensures i < |t| && t[i] == b ==> b < |st.pool.ref| && st.pool.ref[b] > 1
  {
    CountIn(bs, st, t, others, b);
    CountIn(bs, w.store, w.table, others, b);
    CountIn(bs, w.store, w.table, others, w.table[i]);
    SplitTable(t, w.table, i, b);
    HeldAt(w.table, i);
    if i < |t| {
      HeldAt(t, i);
    }
    hide Ready;
  }

  lemma HeldAt(table: seq<nat>, i: nat)
    requires i < |table|
    ensures multiset(table)[table[i]] > 0
  {
    assert table[i] in multiset(table);
  }

  lemma CountIn(bs: nat, st: Store, table: seq<nat>, others: multiset<nat>, b: nat)
    requires Ready(bs, st, table, others) && b < |st.mem|
    ensures b < |st.pool.ref| && st.pool.ref[b] == multiset(table)[b] + others[b]
  {
  }

  /** Tables that agree up to index i, where the second ends with x. */
  lemma SplitTable(t: seq<nat>, t': seq<nat>, i: nat, b: nat)
    requires |t'| == i + 1 && |t| <= i + 1 && forall j :: 0 <= j < i && j < |t| ==> t'[j] == t[j]
    requires i <= |t|
    ensures multiset(t')[b] + (if i < |t| && t[i] == b then 1 else 0) == multiset(t)[b] + if t'[i] == b then 1 else 0
  {
    assert t' == t[..i] + [t'[i]];
    assert multiset(t') == multiset(t[..i]) + multiset{t'[i]};
    if i < |t| {
      assert t == t[..i] + [t[i]];
      assert multiset(t) == multiset(t[..i]) + multiset{t[i]};
    } else {
      assert t == t[..i];
    }
  }

  /** After n sequences have been made ready, the counts on the blocks of the others are those drawn. */
  ghost predicate Tracks(p: Pool, d: Draw, tables: seq<seq<nat>>, n: nat) {
    forall c, j :: n <= c < |tables| && 0 <= j < |tables[c]| ==> SameCount(p, d, tables[c][j])
  }

  ghost predicate SameCount(p: Pool, d: Draw, b: nat) { b < |p.ref| && b < |d.ref| && p.ref[b] == d.ref[b] }

  ghost predicate Within(bs: nat, tables: seq<seq<nat>>, positions: seq<nat>) {
    |tables| == |positions| && forall c :: 0 <= c < |tables| ==> positions[c] <= |tables[c]| * bs
  }

  /** The batch can be made ready exactly when the blocks drawn are free. */
  lemma {:induction false} DrawnExactly(bs: nat, st: Store, tables: seq<seq<nat>>, positions: seq<nat>,
                                        rest: multiset<nat>, n: nat)
    requires Prior(bs, st, tables, positions, rest, 0) && n <= |tables| && Within(bs, tables, positions)
    requires |tables| == |positions|
    ensures ReadyEach(bs, st, tables, positions, n).Some? <==>
      Drawn(bs, st.pool, tables, positions, n).blocks <= |st.pool.free|
    ensures ReadyEach(bs, st, tables, positions, n).Some? ==>
      var e, d := ReadyEach(bs, st, tables, positions, n).value, Drawn(bs, st.pool, tables, positions, n);
      && |e.store.pool.free| + d.blocks == |st.pool.free| && Tracks(e.store.pool, d, tables, n)
      && (forall c :: n <= c < |tables| ==> e.tables[c] == tables[c])
    decreases n
  {
    hide *;
    if n == 0 {
      NobodyReady(bs, st, tables, positions);
      NothingDrawn(bs, st, tables, positions, rest);
    } else {
      var c := n - 1;
      DrawnExactly(bs, st, tables, positions, rest, c);
      ReadyStep(bs, st, tables, positions, c);
      DrawnStep(bs, st.pool, tables, positions, c);
      EachPrior(bs, st, tables, positions, rest, c);
      if ReadyEach(bs, st, tables, positions, c).Some? {
        var e := ReadyEach(bs, st, tables, positions, c).value;
        WithinAt(bs, tables, positions, c);
        DrawOne(bs, e, tables, positions, rest, c, Drawn(bs, st.pool, tables, positions, c));
      }
    }
  }

  lemma WithinAt(bs: nat, tables: seq<seq<nat>>, positions: seq<nat>, c: nat)
    requires Within(bs, tables, positions) && c < |tables|
    ensures |tables| == |positions| && positions[c] <= |tables[c]| * bs
  {
  }

  lemma DrawnStep(bs: nat, p: Pool, tables: seq<seq<nat>>, positions: seq<nat>, n: nat)
    requires n < |tables| == |positions|
    ensures Drawn(bs, p, tables, positions, n + 1) ==
      OneDraw(bs, Drawn(bs, p, tables, positions, n), tables[n], positions[n])
    ensures Drawn(bs, p, tables, positions, n).blocks <= Drawn(bs, p, tables, positions, n + 1).blocks
  {
    hide Room, Taken, Shares;
  }

  lemma NothingDrawn(bs: nat, st: Store, tables: seq<seq<nat>>, positions: seq<nat>, rest: multiset<nat>)
    requires Prior(bs, st, tables, positions, rest, 0) && |tables| == |positions|
    ensures Drawn(bs, st.pool, tables, positions, 0) == Draw(0, st.pool.ref)
    ensures Tracks(st.pool, Draw(0, st.pool.ref), tables, 0)
  {
    PriorParts(bs, st, tables, positions, rest, 0);
    hide Prior, BatchReady;
    forall c, j | 0 <= c < |tables| && 0 <= j < |tables[c]|
      ensures SameCount(st.pool, Draw(0, st.pool.ref), tables[c][j])
    {
      HeldBy(bs, st, tables, rest, c, j);
    }
  }

  /** One sequence's draw. */
  lemma DrawOne(bs: nat, e: Each, tables: seq<seq<nat>>, positions: seq<nat>, rest: multiset<nat>, n: nat, d: Draw)
    requires Prior(bs, e.store, e.tables, positions, rest, n) && n < |tables| == |positions| == |e.tables|
    requires Tracks(e.store.pool, d, tables, n) && forall c :: n <= c < |tables| ==> e.tables[c] == tables[c]
    requires positions[n] <= |tables[n]| * bs
    ensures var w, d' := ReadyOne(bs, e.store, e.tables[n], positions[n]), OneDraw(bs, d, tables[n], positions[n]);
      && (w.Written? <==> d'.blocks - d.blocks <= |e.store.pool.free|)
      && (w.Written? ==> |w.store.pool.free| + (d'.blocks - d.blocks) == |e.store.pool.free|)
      && (w.Written? ==> Tracks(w.store.pool, d', tables, n + 1))
  {
    hide *;
    var st, t, pos, others := e.store, tables[n], positions[n], AllBut(e.tables, n) + rest;
    PriorParts(bs, st, e.tables, positions, rest, n);
    ReadyAt(bs, st, e.tables, rest, n);
    ReadyOneIs(bs, st, t, pos);
    ReadiedExactly(bs, st, t, pos, pos + 1, others);
    TidyCost(bs, st.pool, t, pos);
    SameShares(bs, st.pool, d, tables, n, pos);
    DrawIs(bs, d, t, pos);
    var w, d' := ReadyOne(bs, st, t, pos), OneDraw(bs, d, t, pos);
    if w.Written? {
      forall c, j | n + 1 <= c < |tables| && 0 <= j < |tables[c]|
        ensures SameCount(w.store.pool, d', tables[c][j])
      {
        var b := tables[c][j];
        TracksAt(st.pool, d, tables, n, c, j);
        OtherCount(bs, st, e.tables, rest, n, pos, b, c, j, w);
        StillTracks(bs, st.pool, w.store.pool, d, t, pos, b);
      }
      TracksIs(w.store.pool, d', tables, n + 1);
    }
  }

  lemma TracksIs(p: Pool, d: Draw, tables: seq<seq<nat>>, n: nat)
    requires forall c, j :: n <= c < |tables| && 0 <= j < |tables[c]| ==> SameCount(p, d, tables[c][j])
    ensures Tracks(p, d, tables, n)
  {
    hide SameCount;
  }

  lemma TracksAt(p: Pool, d: Draw, tables: seq<seq<nat>>, n: nat, c: nat, j: nat)
    requires Tracks(p, d, tables, n) && n <= c < |tables| && j < |tables[c]|
    ensures SameCount(p, d, tables[c][j])
  {
    hide SameCount;
  }

  /** Whether the next block is shared is the same in the pool and in the draw. */
  lemma SameShares(bs: nat, p: Pool, d: Draw, tables: seq<seq<nat>>, n: nat, pos: nat)
    requires Tracks(p, d, tables, n) && n < |tables|
    ensures Shares(bs, p.ref, tables[n], pos) <==> Shares(bs, d.ref, tables[n], pos)
  {
    if bs > 0 && pos / bs < |tables[n]| {
      TracksAt(p, d, tables, n, n, pos / bs);
    }
    hide Tracks;
  }

  lemma DrawIs(bs: nat, d: Draw, table: seq<nat>, pos: nat)
    ensures var d' := OneDraw(bs, d, table, pos);
      && d'.blocks == d.blocks + Room(bs, table, pos) + (if Shares(bs, d.ref, table, pos) then 1 else 0)
      && d'.ref == Taken(bs, d.ref, table, pos)
  {
    hide Room, Taken, Shares;
  }

  lemma StillTracks(bs: nat, p: Pool, p': Pool, d: Draw, table: seq<nat>, pos: nat, b: nat)
    requires SameCount(p, d, b) && OneLess(p, p', b, Next(bs, table, pos, b))
    requires Next(bs, table, pos, b) ==> p.ref[b] > 1
    ensures SameCount(p', OneDraw(bs, d, table, pos), b)
  {
    hide Room;
  }
}
