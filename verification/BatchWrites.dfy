/**
 One write for each sequence of a batch, one after the other. The writes go into
 blocks no other sequence references, so a later write of one sequence can be moved
 past the writes of the others.
 */
module BatchWrites {
  import opened Numbers
  import opened Options
  import opened Blocks
  import opened Decoding
  import opened Paging
  import opened PrivateWrites
  import opened Serving

  // ---- references held by the batch's tables

  function All(tables: seq<seq<nat>>): multiset<nat> {
    if tables == [] then multiset{} else multiset(tables[0]) + All(tables[1..])
  }

  lemma {:induction false} AllConcat(a: seq<seq<nat>>, b: seq<seq<nat>>)
    ensures All(a + b) == All(a) + All(b)
    decreases |a|
  {
    if a == [] {
      assert a + b == b;
    } else {
      assert (a + b)[1..] == a[1..] + b;
      AllConcat(a[1..], b);
    }
  }

  function AllBut(tables: seq<seq<nat>>, i: nat): multiset<nat>
    requires i < |tables|
  {
    All(tables[..i]) + All(tables[i + 1..])
  }

  lemma AllAround(tables: seq<seq<nat>>, i: nat)
    requires i < |tables|
    ensures All(tables) == multiset(tables[i]) + AllBut(tables, i)
  {
    var one := [tables[i]];
    assert one[1..] == [];
    assert All(one) == multiset(tables[i]) + All([]);
    assert tables == tables[..i] + (one + tables[i + 1..]);
    hide All;
    AllConcat(tables[..i], one + tables[i + 1..]);
    AllConcat(one, tables[i + 1..]);
    assert All([]) == multiset{} by { NoTables(); }
  }

  lemma NoTables()
    ensures All([]) == multiset{}
  {
  }

  lemma AllButUpdate(tables: seq<seq<nat>>, i: nat, t: seq<nat>)
    requires i < |tables|
    ensures AllBut(tables[i := t], i) == AllBut(tables, i)
  {
    assert tables[i := t][..i] == tables[..i] && tables[i := t][i + 1..] == tables[i + 1..];
  }

  lemma {:induction false} AllHolds(tables: seq<seq<nat>>, i: nat, k: nat)
    requires i < |tables| && k < |tables[i]|
    ensures tables[i][k] in All(tables)
    decreases |tables|
  {
    if i == 0 {
      assert tables[0][k] in multiset(tables[0]);
    } else {
      AllHolds(tables[1..], i - 1, k);
    }
  }

  /** Another sequence's blocks are among the references that are not i's. */
  lemma OthersHold(tables: seq<seq<nat>>, i: nat, c: nat)
    requires i < |tables| && c < |tables| && c != i
    ensures forall k :: 0 <= k < |tables[c]| ==> tables[c][k] in AllBut(tables, i)
  {
    forall k | 0 <= k < |tables[c]|
      ensures tables[c][k] in AllBut(tables, i)
    {
      if c < i {
        assert tables[..i][c] == tables[c];
        AllHolds(tables[..i], c, k);
      } else {
        assert tables[i + 1..][c - i - 1] == tables[c];
        AllHolds(tables[i + 1..], c - i - 1, k);
      }
    }
  }

  lemma KeptLess(st: Store, st': Store, more: multiset<nat>, rest: multiset<nat>)
    requires Kept(st, st', more + rest)
    ensures Kept(st, st', rest) && Kept(st, st', more)
  {
    assert forall b :: b in rest ==> b in more + rest;
    assert forall b :: b in more ==> b in more + rest;
  }

  // ---- a batch with exclusive last blocks

  function TotalNeed(bs: nat, tables: seq<seq<nat>>, positions: seq<nat>, n: nat): nat
    requires bs > 0 && n <= |tables| == |positions|
  {
    if n == 0 then 0
    else TotalNeed(bs, tables, positions, n - 1) + BlocksNeeded(bs, tables[n - 1], positions[n - 1] + 1)
  }

  lemma {:induction false} NeedWithin(bs: nat, tables: seq<seq<nat>>, positions: seq<nat>, n: nat, c: nat)
    requires bs > 0 && c < n <= |tables| == |positions|
    ensures BlocksNeeded(bs, tables[c], positions[c] + 1) <= TotalNeed(bs, tables, positions, n)
  {
    if c < n - 1 {
      NeedWithin(bs, tables, positions, n - 1, c);
    }
  }

  lemma {:induction false} NeedUpdate(bs: nat, tables: seq<seq<nat>>, positions: seq<nat>, n: nat, c: nat, t: seq<nat>)
    requires bs > 0 && n <= |tables| == |positions| && c < |tables| && BlocksNeeded(bs, t, positions[c] + 1) == 0
    ensures TotalNeed(bs, tables[c := t], positions, n) ==
      TotalNeed(bs, tables, positions, n) - if c < n then BlocksNeeded(bs, tables[c], positions[c] + 1) else 0
  {
    if n > 0 {
      NeedUpdate(bs, tables, positions, n - 1, c, t);
      hide BlocksNeeded;
    }
  }

  /**
   Each sequence's next position goes into a block of its own (its table's blocks from
   index from[c] on), and the blocks all of them still need are free.
   */
  ghost predicate Ample(bs: nat, st: Store, tables: seq<seq<nat>>, positions: seq<nat>, from: seq<nat>) {
    && bs > 0 && |tables| == |positions| == |from|
    && (forall c :: 0 <= c < |tables| ==> PrivateFrom(st.pool, tables[c], from[c]) && from[c] * bs <= positions[c])
    && TotalNeed(bs, tables, positions, |tables|) <= |st.pool.free|
  }

  ghost predicate Sound(bs: nat, st: Store, tables: seq<seq<nat>>, positions: seq<nat>, from: seq<nat>,
                        rest: multiset<nat>) {
    && Shaped(bs, st) && FreeListOk(st.pool) && Counts(st.pool, All(tables) + rest)
    && Ample(bs, st, tables, positions, from)
    && forall c :: 0 <= c < |tables| ==> InRange(st, tables[c]) && positions[c] <= |tables[c]| * bs
  }

  lemma Regrouped(tables: seq<seq<nat>>, i: nat, rest: multiset<nat>)
    requires i < |tables|
    ensures All(tables) + rest == multiset(tables[i]) + (AllBut(tables, i) + rest)
  {
    AllAround(tables, i);
  }

  /** Sequence s of a sound batch, by itself. */
  lemma SoundAt(bs: nat, st: Store, tables: seq<seq<nat>>, positions: seq<nat>, from: seq<nat>, rest: multiset<nat>,
                s: nat)
    requires Sound(bs, st, tables, positions, from, rest) && s < |tables|
    ensures |tables| == |positions| == |from| && bs > 0
    ensures Shaped(bs, st) && FreeListOk(st.pool) && InRange(st, tables[s]) && positions[s] <= |tables[s]| * bs
    ensures Counts(st.pool, multiset(tables[s]) + (AllBut(tables, s) + rest))
    ensures Exclusive(bs, st, tables[s], positions[s], positions[s] + 1, from[s])
  {
    Regrouped(tables, s, rest);
    NeedWithin(bs, tables, positions, |tables|, s);
    hide Shaped, FreeListOk, Counts, PrivateFrom, BlocksNeeded, TotalNeed;
  }

  /** One write of a sound batch succeeds and leaves it sound. */
  lemma OneSound(bs: nat, st: Store, tables: seq<seq<nat>>, positions: seq<nat>, from: seq<nat>, rest: multiset<nat>,
                 s: nat, col: Column)
    requires Sound(bs, st, tables, positions, from, rest) && s < |tables|
    requires Shaped(bs, st) && FreeListOk(st.pool) && InRange(st, tables[s]) && |tables| == |positions| == |from|
    ensures var w := Write(bs, st, tables[s], positions[s], [col]);
      && w.Written? && Sound(bs, w.store, tables[s := w.table], positions, from, rest)
      && positions[s] + 1 <= |w.table| * bs && tables[s] <= w.table
      && (positions[s] + 1 <= |tables[s]| * bs ==> w.table == tables[s])
      && Kept(st, w.store, AllBut(tables, s) + rest)
      && Gather(bs, w.store, w.table, positions[s] + 1) == Gather(bs, st, tables[s], positions[s]) + [col]
  {
    var pos, others := positions[s], AllBut(tables, s) + rest;
    SoundAt(bs, st, tables, positions, from, rest, s);
    hide Shaped, FreeListOk, Counts, PrivateFrom, BlocksNeeded, TotalNeed, Write, Gather, Kept, Sound;
    WritePuts(bs, st, tables[s], pos, [col], from[s], multiset(tables[s]) + others);
    WriteIsolated(bs, st, tables[s], pos, [col], others);
    var w := Write(bs, st, tables[s], pos, [col]);
    OneAmple(bs, st, tables, positions, from, rest, s, w.store, w.table);
    if pos + 1 <= |tables[s]| * bs {
      NothingMore(bs, st.pool, tables[s], pos + 1);
    }
  }

  lemma StillPrivate(p: Pool, n: nat, held: multiset<nat>, table: seq<nat>, from: nat)
    requires Counts(p, held) && FreeListOk(p) && n <= |p.free| && PrivateFrom(p, table, from)
    ensures PrivateFrom(AllocateMany(p, n), table, from)
  {
    forall i | from <= i < |table|
      ensures table[i] < |AllocateMany(p, n).ref| && AllocateMany(p, n).ref[table[i]] == 1
    {
      AllocateKeeps(p, n, held, table[i]);
    }
  }

  lemma OneAmple(bs: nat, st: Store, tables: seq<seq<nat>>, positions: seq<nat>, from: seq<nat>, rest: multiset<nat>,
                 s: nat, st': Store, table': seq<nat>)
    requires Sound(bs, st, tables, positions, from, rest) && s < |tables| == |positions| == |from|
    requires bs > 0 && FreeListOk(st.pool) && BlocksNeeded(bs, tables[s], positions[s] + 1) <= |st.pool.free|
    requires st'.pool == AllocateMany(st.pool, BlocksNeeded(bs, tables[s], positions[s] + 1))
    requires PrivateFrom(st'.pool, table', from[s]) && positions[s] + 1 <= |table'| * bs
    requires Shaped(bs, st') && InRange(st', table') && |st'.mem| == |st.mem|
    requires Counts(st'.pool, multiset(table') + (AllBut(tables, s) + rest))
    ensures Sound(bs, st', tables[s := table'], positions, from, rest)
  {
    var after, need := tables[s := table'], BlocksNeeded(bs, tables[s], positions[s] + 1);
    Regrouped(after, s, rest);
    AllButUpdate(tables, s, table');
    CountsFreeList(st'.pool, All(after) + rest);
    CeilDivFits(positions[s] + 1, bs, |table'|);
    NeedUpdate(bs, tables, positions, |tables|, s, table');
    AllocateManyFreeList(st.pool, need);
    hide Shaped, FreeListOk, Counts, PrivateFrom, BlocksNeeded, TotalNeed, AllocateMany, All, AllBut;
    forall c | 0 <= c < |tables|
      ensures PrivateFrom(st'.pool, after[c], from[c]) && InRange(st', after[c]) && positions[c] <= |after[c]| * bs
    {
      if c != s {
        StillPrivate(st.pool, need, All(tables) + rest, tables[c], from[c]);
      }
    }
  }

  // ---- one write each

  datatype Each = Each(store: Store, tables: seq<seq<nat>>)

  ghost function WriteOne(bs: nat, st: Store, table: seq<nat>, pos: nat, col: Column): Written {
    if Shaped(bs, st) && FreeListOk(st.pool) && InRange(st, table) then Write(bs, st, table, pos, [col])
    else OutOfBlocks
  }

  /** The first n sequences write their columns, in turn. */
  ghost function WriteEach(bs: nat, st: Store, tables: seq<seq<nat>>, positions: seq<nat>, cols: seq<Column>,
                           n: nat): (r: Option<Each>)
    requires n <= |tables| == |positions| && n <= |cols|
    ensures r.Some? ==> |r.value.tables| == |tables|
  {
    if n == 0 then Some(Each(st, tables))
    else
      match WriteEach(bs, st, tables, positions, cols, n - 1)
      case None => None
      case Some(e) =>
        var w := WriteOne(bs, e.store, e.tables[n - 1], positions[n - 1], cols[n - 1]);
        if w.OutOfBlocks? then None else Some(Each(w.store, e.tables[n - 1 := w.table]))
  }

  /** The last of the n writes. */
  lemma LastOfEach(bs: nat, st: Store, tables: seq<seq<nat>>, positions: seq<nat>, cols: seq<Column>, n: nat,
                   from: seq<nat>, rest: multiset<nat>, e: Each)
    requires n < |tables| == |positions| && n < |cols| && WriteEach(bs, st, tables, positions, cols, n) == Some(e)
    requires Sound(bs, e.store, e.tables, positions, from, rest)
    ensures Shaped(bs, e.store) && FreeListOk(e.store.pool) && InRange(e.store, e.tables[n])
    ensures var w := Write(bs, e.store, e.tables[n], positions[n], [cols[n]]);
      WriteEach(bs, st, tables, positions, cols, n + 1) ==
        if w.OutOfBlocks? then None else Some(Each(w.store, e.tables[n := w.table]))
  {
    SoundAt(bs, e.store, e.tables, positions, from, rest, n);
    hide Sound, Write, Shaped, FreeListOk, InRange;
  }

  /** The writes of a sound batch succeed, and keep it sound. */
  lemma {:induction false} EachSound(bs: nat, st: Store, tables: seq<seq<nat>>, positions: seq<nat>,
                                     cols: seq<Column>, n: nat, from: seq<nat>, rest: multiset<nat>) returns (e: Each)
    requires n <= |tables| == |positions| && n <= |cols| && Sound(bs, st, tables, positions, from, rest)
    ensures WriteEach(bs, st, tables, positions, cols, n) == Some(e) && |e.tables| == |tables|
    ensures Sound(bs, e.store, e.tables, positions, from, rest)
    ensures forall c :: n <= c < |tables| ==> e.tables[c] == tables[c]
    ensures forall c :: 0 <= c < n ==> positions[c] + 1 <= |e.tables[c]| * bs
  {
    hide Sound, Write, WriteOne;
    if n == 0 {
      e := Each(st, tables);
    } else {
      var d := EachSound(bs, st, tables, positions, cols, n - 1, from, rest);
      LastOfEach(bs, st, tables, positions, cols, n - 1, from, rest, d);
      SoundAt(bs, d.store, d.tables, positions, from, rest, n - 1);
      OneSound(bs, d.store, d.tables, positions, from, rest, n - 1, cols[n - 1]);
      e := WriteEach(bs, st, tables, positions, cols, n).value;
    }
  }

  // ---- a later write of one sequence moves past the others'

  /** The blocks two sequences write into are different. */
  lemma BlocksApart(bs: nat, st: Store, tables: seq<seq<nat>>, positions: seq<nat>, from: seq<nat>,
                    rest: multiset<nat>, s: nat, c: nat)
    requires Sound(bs, st, tables, positions, from, rest) && s < |tables| && c < |tables| && s != c
    requires |positions| == |tables| && bs > 0
    requires positions[s] < |tables[s]| * bs && positions[c] < |tables[c]| * bs
    ensures Apart(bs, tables[s], positions[s], tables[c], positions[c])
  {
    SoundAt(bs, st, tables, positions, from, rest, s);
    OthersHold(tables, s, c);
    assert PrivateFrom(st.pool, tables[s], from[s]) && from[s] * bs <= positions[s];
    hide *;
    OwnBlock(bs, st.pool, tables[s], positions[s], from[s], AllBut(tables, s), rest, tables[c], positions[c]);
  }

  lemma OwnBlock(bs: nat, pool: Pool, t: seq<nat>, p: nat, from: nat, others: multiset<nat>, rest: multiset<nat>,
                 u: seq<nat>, q: nat)
    requires Counts(pool, multiset(t) + (others + rest)) && PrivateFrom(pool, t, from)
    requires bs > 0 && from * bs <= p < |t| * bs && q < |u| * bs
    requires forall k :: 0 <= k < |u| ==> u[k] in others
    ensures Apart(bs, t, p, u, q)
  {
    PageBound(p, |t|, bs);
    PageBound(q, |u|, bs);
    PageAtLeast(p, from, bs);
    hide Counts, PrivateFrom;
    NotTheirs(pool, t, others + rest, from, p / bs);
  }

  lemma NotTheirs(p: Pool, table: seq<nat>, others: multiset<nat>, from: nat, i: nat)
    requires Counts(p, multiset(table) + others) && PrivateFrom(p, table, from) && from <= i < |table|
    ensures table[i] !in others
  {
    assert table[i] in multiset(table);
    NotHeldElsewhere(table, i, others);
  }

  lemma OnePuts(bs: nat, st: Store, tables: seq<seq<nat>>, positions: seq<nat>, from: seq<nat>, rest: multiset<nat>,
                s: nat, col: Column)
    requires Sound(bs, st, tables, positions, from, rest) && s < |tables|
    requires Shaped(bs, st) && FreeListOk(st.pool) && InRange(st, tables[s]) && |tables| == |positions| == |from|
    requires bs > 0
    requires BlocksNeeded(bs, tables[s], positions[s] + 1) <= |st.pool.free|
    ensures var need, t := BlocksNeeded(bs, tables[s], positions[s] + 1),
      GrownTable(bs, st.pool, tables[s], positions[s] + 1);
      && Fits(bs, st.mem, t) && positions[s] + 1 <= |t| * bs
      && Write(bs, st, tables[s], positions[s], [col]) ==
           Written(Store(AllocateMany(st.pool, need), Put(bs, st.mem, t, positions[s], col)), t)
  {
    SoundAt(bs, st, tables, positions, from, rest, s);
    hide Sound, Write, Shaped, FreeListOk, InRange, Counts, Fits, Put, AllocateMany, GrownTable, BlocksNeeded;
    WritePuts(bs, st, tables[s], positions[s], [col], from[s], multiset(tables[s]) + (AllBut(tables, s) + rest));
    OnePut(bs, st.mem, GrownTable(bs, st.pool, tables[s], positions[s] + 1), positions[s], col);
  }

  lemma OnePut(bs: nat, mem: seq<seq<Column>>, table: seq<nat>, pos: nat, col: Column)
    requires Fits(bs, mem, table) && pos + 1 <= |table| * bs
    ensures PutAll(bs, mem, table, pos, [col]) == Put(bs, mem, table, pos, col)
  {
    assert [col][1..] == [];
  }

  /** A write of s, which has room already, and a write of c can be exchanged. */
  lemma WritesCommute(bs: nat, st: Store, tables: seq<seq<nat>>, positions: seq<nat>, from: seq<nat>,
                      rest: multiset<nat>, s: nat, y: Column, c: nat, z: Column, st1: Store, st2: Store,
                      table2: seq<nat>)
    requires Sound(bs, st, tables, positions, from, rest) && s < |tables| && c < |tables| && s != c
    requires |positions| == |tables| == |from| && positions[s] + 1 <= |tables[s]| * bs
    requires WriteOne(bs, st, tables[s], positions[s], y) == Written(st1, tables[s])
    requires WriteOne(bs, st, tables[c], positions[c], z) == Written(st2, table2)
    ensures WriteOne(bs, st1, tables[c], positions[c], z).Written?
    ensures WriteOne(bs, st2, tables[s], positions[s], y) ==
      Written(WriteOne(bs, st1, tables[c], positions[c], z).store, tables[s])
    ensures WriteOne(bs, st1, tables[c], positions[c], z).table == table2
  {
    var after := tables[c := table2];
    OneStep(bs, st, tables, positions, from, rest, s, y);
    OneStep(bs, st, tables, positions, from, rest, c, z);
    assert tables[s := tables[s]] == tables;
    SoundAt(bs, st2, after, positions, from, rest, s);
    hide Sound, Shaped, FreeListOk, InRange, Counts, Exclusive, Put, Fits, WriteOne, AllocateMany, GrownTable,
      BlocksNeeded, Apart;
    OneStep(bs, st1, tables, positions, from, rest, c, z);
    OneStep(bs, st2, after, positions, from, rest, s, y);
    NothingMore(bs, st.pool, tables[s], positions[s] + 1);
    NothingMore(bs, st2.pool, tables[s], positions[s] + 1);
    BlocksApart(bs, st2, after, positions, from, rest, s, c);
    PutsCommute(bs, st.mem, tables[s], positions[s], y, table2, positions[c], z);
  }

  /** A sound batch's write, as a put, and what it leaves. */
  lemma OneStep(bs: nat, st: Store, tables: seq<seq<nat>>, positions: seq<nat>, from: seq<nat>, rest: multiset<nat>,
                s: nat, col: Column)
    requires Sound(bs, st, tables, positions, from, rest) && s < |tables| == |positions|
    ensures bs > 0 && BlocksNeeded(bs, tables[s], positions[s] + 1) <= |st.pool.free| && FreeListOk(st.pool)
    ensures var need, t := BlocksNeeded(bs, tables[s], positions[s] + 1),
      GrownTable(bs, st.pool, tables[s], positions[s] + 1);
      && Fits(bs, st.mem, t) && positions[s] + 1 <= |t| * bs
      && WriteOne(bs, st, tables[s], positions[s], col) ==
           Written(Store(AllocateMany(st.pool, need), Put(bs, st.mem, t, positions[s], col)), t)
    ensures var w := WriteOne(bs, st, tables[s], positions[s], col);
      Sound(bs, w.store, tables[s := w.table], positions, from, rest)
  {
    SoundAt(bs, st, tables, positions, from, rest, s);
    assert BlocksNeeded(bs, tables[s], positions[s] + 1) <= |st.pool.free|;
    hide Sound, Write, Shaped, FreeListOk, InRange, Counts, Exclusive, Put, Fits, AllocateMany, GrownTable,
      BlocksNeeded;
    OnePuts(bs, st, tables, positions, from, rest, s, col);
    OneSound(bs, st, tables, positions, from, rest, s, col);
  }

  /** Sequence s writing its position once more is as if it had written that column in its turn. */
  lemma {:induction false} EachUpdate(bs: nat, st: Store, tables: seq<seq<nat>>, positions: seq<nat>,
                                      cols: seq<Column>, n: nat, from: seq<nat>, rest: multiset<nat>, s: nat,
                                      y: Column, e: Each)
    requires s < n <= |tables| == |positions| && n <= |cols| && Sound(bs, st, tables, positions, from, rest)
    requires WriteEach(bs, st, tables, positions, cols, n) == Some(e)
    ensures WriteOne(bs, e.store, e.tables[s], positions[s], y).Written?
    ensures WriteEach(bs, st, tables, positions, cols[s := y], n) ==
      Some(Each(WriteOne(bs, e.store, e.tables[s], positions[s], y).store, e.tables))
    ensures WriteOne(bs, e.store, e.tables[s], positions[s], y).table == e.tables[s]
    decreases n
  {
    hide *;
    var c := n - 1;
    var d := EachSound(bs, st, tables, positions, cols, c, from, rest);
    if s == c {
      UpdateLast(bs, st, tables, positions, cols, from, rest, s, y, d, e);
    } else {
      EachUpdate(bs, st, tables, positions, cols, c, from, rest, s, y, d);
      UpdateEarlier(bs, st, tables, positions, cols, c, from, rest, s, y, d, e);
    }
  }

  lemma UpdateLast(bs: nat, st: Store, tables: seq<seq<nat>>, positions: seq<nat>, cols: seq<Column>,
                   from: seq<nat>, rest: multiset<nat>, s: nat, y: Column, d: Each, e: Each)
    requires s < |tables| == |positions| && s < |cols| && WriteEach(bs, st, tables, positions, cols, s) == Some(d)
    requires Sound(bs, d.store, d.tables, positions, from, rest)
    requires WriteEach(bs, st, tables, positions, cols, s + 1) == Some(e)
    ensures WriteOne(bs, e.store, e.tables[s], positions[s], y).Written?
    ensures WriteEach(bs, st, tables, positions, cols[s := y], s + 1) ==
      Some(Each(WriteOne(bs, e.store, e.tables[s], positions[s], y).store, e.tables))
    ensures WriteOne(bs, e.store, e.tables[s], positions[s], y).table == e.tables[s]
  {
    hide *;
    EachStep(bs, st, tables, positions, cols, s, d);
    EachSame(bs, st, tables, positions, cols, cols[s := y], s);
    EachStep(bs, st, tables, positions, cols[s := y], s, d);
    TwiceOne(bs, d.store, d.tables, positions, from, rest, s, cols[s], y);
  }

  lemma UpdateEarlier(bs: nat, st: Store, tables: seq<seq<nat>>, positions: seq<nat>, cols: seq<Column>, c: nat,
                      from: seq<nat>, rest: multiset<nat>, s: nat, y: Column, d: Each, e: Each)
    requires s < c < |tables| == |positions| && c < |cols| && WriteEach(bs, st, tables, positions, cols, c) == Some(d)
    requires Sound(bs, d.store, d.tables, positions, from, rest)
    requires WriteEach(bs, st, tables, positions, cols, c + 1) == Some(e)
    requires positions[s] + 1 <= |d.tables[s]| * bs
    requires var w := WriteOne(bs, d.store, d.tables[s], positions[s], y);
      w.Written? && w.table == d.tables[s]
      && WriteEach(bs, st, tables, positions, cols[s := y], c) == Some(Each(w.store, d.tables))
    ensures WriteOne(bs, e.store, e.tables[s], positions[s], y).Written?
    ensures WriteEach(bs, st, tables, positions, cols[s := y], c + 1) ==
      Some(Each(WriteOne(bs, e.store, e.tables[s], positions[s], y).store, e.tables))
    ensures WriteOne(bs, e.store, e.tables[s], positions[s], y).table == e.tables[s]
  {
    hide *;
    var st1 := WriteOne(bs, d.store, d.tables[s], positions[s], y).store;
    var w := WriteOne(bs, d.store, d.tables[c], positions[c], cols[c]);
    EachStep(bs, st, tables, positions, cols, c, d);
    EachStep(bs, st, tables, positions, cols[s := y], c, Each(st1, d.tables));
    SoundSize(bs, d.store, d.tables, positions, from, rest);
    WritesCommute(bs, d.store, d.tables, positions, from, rest, s, y, c, cols[c], st1, w.store, w.table);
  }

  lemma EachStep(bs: nat, st: Store, tables: seq<seq<nat>>, positions: seq<nat>, cols: seq<Column>, n: nat, d: Each)
    requires n < |tables| == |positions| && n < |cols| && WriteEach(bs, st, tables, positions, cols, n) == Some(d)
    ensures n < |d.tables| == |tables|
    ensures var w := WriteOne(bs, d.store, d.tables[n], positions[n], cols[n]);
      WriteEach(bs, st, tables, positions, cols, n + 1) == if w.OutOfBlocks? then None
        else Some(Each(w.store, d.tables[n := w.table]))
  {
    hide WriteOne;
  }

  lemma SoundSize(bs: nat, st: Store, tables: seq<seq<nat>>, positions: seq<nat>, from: seq<nat>, rest: multiset<nat>)
    requires Sound(bs, st, tables, positions, from, rest)
    ensures |tables| == |positions| == |from|
  {
  }

  lemma {:induction false} EachSame(bs: nat, st: Store, tables: seq<seq<nat>>, positions: seq<nat>, cols: seq<Column>,
                                    cols': seq<Column>, n: nat)
    requires n <= |tables| == |positions| && n <= |cols| && n <= |cols'|
    requires forall c :: 0 <= c < n ==> cols'[c] == cols[c]
    ensures WriteEach(bs, st, tables, positions, cols', n) == WriteEach(bs, st, tables, positions, cols, n)
    decreases n
  {
    hide WriteOne;
    if n > 0 {
      EachSame(bs, st, tables, positions, cols, cols', n - 1);
    }
  }

  /** Writing one position twice is writing the second column. */
  lemma TwiceOne(bs: nat, st: Store, tables: seq<seq<nat>>, positions: seq<nat>, from: seq<nat>, rest: multiset<nat>,
                 s: nat, x: Column, y: Column)
    requires Sound(bs, st, tables, positions, from, rest) && s < |tables| == |positions|
    requires WriteOne(bs, st, tables[s], positions[s], x).Written?
    ensures var w := WriteOne(bs, st, tables[s], positions[s], x);
      WriteOne(bs, w.store, w.table, positions[s], y) == WriteOne(bs, st, tables[s], positions[s], y)
    ensures WriteOne(bs, st, tables[s], positions[s], y).Written?
    ensures WriteOne(bs, st, tables[s], positions[s], y).table == WriteOne(bs, st, tables[s], positions[s], x).table
  {
    var w := WriteOne(bs, st, tables[s], positions[s], x);
    OneStep(bs, st, tables, positions, from, rest, s, x);
    OneStep(bs, st, tables, positions, from, rest, s, y);
    hide Sound, Put, Fits, AllocateMany, GrownTable, BlocksNeeded, FreeListOk, WriteOne;
    var after := tables[s := w.table];
    OneStep(bs, w.store, after, positions, from, rest, s, y);
    NothingMore(bs, w.store.pool, w.table, positions[s] + 1);
    PutTwice(bs, st.mem, w.table, positions[s], x, y);
  }

  // ---- what each sequence reads

  /** One write, seen by the writer. */
  lemma WriterReads(bs: nat, st: Store, tables: seq<seq<nat>>, positions: seq<nat>, from: seq<nat>,
                    rest: multiset<nat>, s: nat, col: Column)
    requires Sound(bs, st, tables, positions, from, rest) && s < |tables| == |positions|
    requires Shaped(bs, st) && InRange(st, tables[s]) && positions[s] <= |tables[s]| * bs
    ensures var w, n := WriteOne(bs, st, tables[s], positions[s], col), positions[s];
      && w.Written? && Shaped(bs, w.store) && InRange(w.store, w.table) && n + 1 <= |w.table| * bs
      && Gather(bs, w.store, w.table, n) == Gather(bs, st, tables[s], n)
      && Gather(bs, w.store, w.table, n + 1) == Gather(bs, st, tables[s], n) + [col]
  {
    SoundAt(bs, st, tables, positions, from, rest, s);
    var w, n := Write(bs, st, tables[s], positions[s], [col]), positions[s];
    OneSound(bs, st, tables, positions, from, rest, s, col);
    SoundAt(bs, w.store, tables[s := w.table], positions, from, rest, s);
    hide Sound, Write, Shaped, FreeListOk, InRange, Counts, Exclusive, Gather, AllBut, All, Kept;
    GatherPrefix(bs, w.store, w.table, n, n + 1);
  }

  /** One write of s, seen by another sequence. */
  lemma OtherReads(bs: nat, st: Store, tables: seq<seq<nat>>, positions: seq<nat>, from: seq<nat>,
                   rest: multiset<nat>, s: nat, col: Column, c: nat, n: nat)
    requires Sound(bs, st, tables, positions, from, rest) && s < |tables| == |positions| && c < |tables| && c != s
    requires Shaped(bs, st) && InRange(st, tables[c]) && n <= |tables[c]| * bs
    ensures var w := WriteOne(bs, st, tables[s], positions[s], col);
      && w.Written? && Shaped(bs, w.store) && InRange(w.store, tables[c])
      && Gather(bs, w.store, tables[c], n) == Gather(bs, st, tables[c], n)
  {
    SoundAt(bs, st, tables, positions, from, rest, s);
    var w := Write(bs, st, tables[s], positions[s], [col]);
    OneSound(bs, st, tables, positions, from, rest, s, col);
    SoundAt(bs, w.store, tables[s := w.table], positions, from, rest, c);
    hide Sound, Write, Shaped, FreeListOk, InRange, Counts, Exclusive, Gather, AllBut, All, Kept;
    OthersHold(tables, s, c);
    KeptBlocks(st, w.store, AllBut(tables, s), rest, tables[c]);
    SameBlocksSameView(bs, st, w.store, tables[c], n);
  }

  lemma KeptBlocks(st: Store, st': Store, more: multiset<nat>, rest: multiset<nat>, table: seq<nat>)
    requires Kept(st, st', more + rest) && forall k :: 0 <= k < |table| ==> table[k] in more
    ensures forall k :: 0 <= k < |table| ==>
      table[k] < |st'.mem| && table[k] < |st.mem| && st'.mem[table[k]] == st.mem[table[k]]
  {
    KeptLess(st, st', more, rest);
  }

  /** What sequence c had before the writes, and after its own. */
  lemma {:induction false} EachReads(bs: nat, st: Store, tables: seq<seq<nat>>, positions: seq<nat>,
                                     cols: seq<Column>, n: nat, from: seq<nat>, rest: multiset<nat>, c: nat, e: Each)
    requires n <= |tables| == |positions| && n <= |cols| && c < |tables| && Sound(bs, st, tables, positions, from, rest)
    requires WriteEach(bs, st, tables, positions, cols, n) == Some(e)
    requires Shaped(bs, st) && InRange(st, tables[c]) && positions[c] <= |tables[c]| * bs
    ensures Shaped(bs, e.store) && InRange(e.store, e.tables[c]) && positions[c] <= |e.tables[c]| * bs
    ensures Gather(bs, e.store, e.tables[c], positions[c]) == Gather(bs, st, tables[c], positions[c])
    ensures c < n ==> positions[c] + 1 <= |e.tables[c]| * bs
    ensures c < n ==>
      Gather(bs, e.store, e.tables[c], positions[c] + 1) == Gather(bs, st, tables[c], positions[c]) + [cols[c]]
    decreases n
  {
    hide Sound, WriteOne, Gather, Shaped, InRange;
    if n > 0 {
      var d := EachSound(bs, st, tables, positions, cols, n - 1, from, rest);
      EachReads(bs, st, tables, positions, cols, n - 1, from, rest, c, d);
      if c == n - 1 {
        WriterReads(bs, d.store, d.tables, positions, from, rest, c, cols[c]);
      } else {
        OtherReads(bs, d.store, d.tables, positions, from, rest, n - 1, cols[n - 1], c, positions[c]);
        if c < n - 1 {
          OtherReads(bs, d.store, d.tables, positions, from, rest, n - 1, cols[n - 1], c, positions[c] + 1);
        }
      }
    }
  }

  // ---- sequences fed alone, one after the other

  datatype Fed = Fed(store: Store, tables: seq<seq<nat>>, outs: seq<Token>)

  /** The first n sequences each run one token through a pass of their own. */
  ghost function InferEach(bs: nat, m: Model, st: Store, tables: seq<seq<nat>>, positions: seq<nat>, toks: seq<Token>,
                           n: nat): (r: Option<Fed>)
    requires n <= |tables| == |positions| == |toks|
    ensures r.Some? ==> |r.value.tables| == |tables| && |r.value.outs| == n
  {
    if n == 0 then Some(Fed(st, tables, []))
    else
      match InferEach(bs, m, st, tables, positions, toks, n - 1)
      case None => None
      case Some(f) =>
        match Infer(bs, m, f.store, f.tables[n - 1], positions[n - 1], [toks[n - 1]])
        case None => None
        case Some(p) => Some(Fed(p.store, f.tables[n - 1 := p.table], f.outs + [p.token]))
  }

  /** A pass of one token is a write of its column. */
  lemma InferOne(bs: nat, m: Model, st: Store, table: seq<nat>, pos: nat, tok: Token)
    requires Shaped(bs, st) && FreeListOk(st.pool) && InRange(st, table) && pos <= |table| * bs
    ensures var view := Gather(bs, st, table, pos);
      var w := WriteOne(bs, st, table, pos, m.col(view, tok));
      Infer(bs, m, st, table, pos, [tok]) == if w.OutOfBlocks? then None
        else Some(Pass(w.store, w.table, m.pick(view, tok)))
  {
    var view := Gather(bs, st, table, pos);
    ReadsWritten(bs, m, st, table, pos, [tok]);
    OneMoreColumn(m, view, tok);
    hide Infer, Extend, Gather, Write, Shaped, FreeListOk, InRange;
  }

  lemma OneMoreColumn(m: Model, view: seq<Column>, tok: Token)
    ensures var cols := Extend(m, view, [tok]);
      cols == view + [m.col(view, tok)] && cols[|view|..] == [m.col(view, tok)] && cols[..|cols| - 1] == view
  {
    assert [tok][1..] == [];
    assert Extend(m, view, [tok]) == Extend(m, view + [m.col(view, tok)], []);
  }

  /** Sequences fed alone, in turn, write each its own column: none of them reads what another has written. */
  lemma {:induction false} EachInfers(bs: nat, m: Model, st: Store, tables: seq<seq<nat>>, positions: seq<nat>,
                                      toks: seq<Token>, views: seq<seq<Column>>, cols: seq<Column>, n: nat,
                                      from: seq<nat>, rest: multiset<nat>)
    returns (e: Each, outs: seq<Token>)
    requires n <= |tables| == |positions| == |toks| == |views| == |cols| && Sound(bs, st, tables, positions, from, rest)
    requires Shaped(bs, st) && forall c :: 0 <= c < |tables| ==>
      && InRange(st, tables[c]) && positions[c] <= |tables[c]| * bs
        && views[c] == Gather(bs, st, tables[c], positions[c])
      && cols[c] == m.col(views[c], toks[c])
    ensures WriteEach(bs, st, tables, positions, cols, n) == Some(e)
    ensures InferEach(bs, m, st, tables, positions, toks, n) == Some(Fed(e.store, e.tables, outs))
    ensures |outs| == n && forall c :: 0 <= c < n ==> outs[c] == m.pick(views[c], toks[c])
    decreases n
  {
    hide *;
    if n == 0 {
      e, outs := Each(st, tables), [];
      NobodyYet(bs, m, st, tables, positions, cols, toks);
    } else {
      var c := n - 1;
      var before;
      e, before := EachInfers(bs, m, st, tables, positions, toks, views, cols, c, from, rest);
      e := NextInfers(bs, m, st, tables, positions, toks, views[c], cols, c, from, rest, e, before);
      outs := before + [m.pick(views[c], toks[c])];
    }
  }

  lemma NobodyYet(bs: nat, m: Model, st: Store, tables: seq<seq<nat>>, positions: seq<nat>, cols: seq<Column>,
                  toks: seq<Token>)
    requires |tables| == |positions| == |toks|
    ensures WriteEach(bs, st, tables, positions, cols, 0) == Some(Each(st, tables))
    ensures InferEach(bs, m, st, tables, positions, toks, 0) == Some(Fed(st, tables, []))
  {
  }

  lemma NextInfers(bs: nat, m: Model, st: Store, tables: seq<seq<nat>>, positions: seq<nat>, toks: seq<Token>,
                   view: seq<Column>, cols: seq<Column>, c: nat, from: seq<nat>, rest: multiset<nat>, d: Each,
                   before: seq<Token>) returns (e: Each)
    requires c < |tables| == |positions| == |toks| == |cols| && Sound(bs, st, tables, positions, from, rest)
    requires Shaped(bs, st) && InRange(st, tables[c]) && positions[c] <= |tables[c]| * bs
    requires view == Gather(bs, st, tables[c], positions[c]) && cols[c] == m.col(view, toks[c])
    requires WriteEach(bs, st, tables, positions, cols, c) == Some(d)
    requires InferEach(bs, m, st, tables, positions, toks, c) == Some(Fed(d.store, d.tables, before))
    ensures WriteEach(bs, st, tables, positions, cols, c + 1) == Some(e)
    ensures InferEach(bs, m, st, tables, positions, toks, c + 1) ==
      Some(Fed(e.store, e.tables, before + [m.pick(view, toks[c])]))
  {
    hide *;
    var d' := EachSound(bs, st, tables, positions, cols, c, from, rest);
    EachReads(bs, st, tables, positions, cols, c, from, rest, c, d);
    SoundAt(bs, d.store, d.tables, positions, from, rest, c);
    InferOne(bs, m, d.store, d.tables[c], positions[c], toks[c]);
    EachStep(bs, st, tables, positions, cols, c, d);
    InferStep(bs, m, st, tables, positions, toks, c, Fed(d.store, d.tables, before));
    e := EachSound(bs, st, tables, positions, cols, c + 1, from, rest);
  }

  lemma InferStep(bs: nat, m: Model, st: Store, tables: seq<seq<nat>>, positions: seq<nat>, toks: seq<Token>, n: nat,
                  f: Fed)
    requires n < |tables| == |positions| == |toks| == |f.tables|
    requires InferEach(bs, m, st, tables, positions, toks, n) == Some(f)
    ensures InferEach(bs, m, st, tables, positions, toks, n + 1) ==
      match Infer(bs, m, f.store, f.tables[n], positions[n], [toks[n]])
      case None => None
      case Some(p) => Some(Fed(p.store, f.tables[n := p.table], f.outs + [p.token]))
  {
    hide Infer;
  }
}
