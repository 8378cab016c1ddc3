/** One decode step for a whole batch: every sequence ends up as if it had decoded alone. */
module BatchedDecode {
  import opened Options
  import opened Blocks
  import opened Paging
  import opened Decoding
  import opened Serving
  import opened PagedForward
  import opened PlainForward
  import opened SharedWrites
  import opened BatchWrites
  import opened SharedBatch
  import opened Transformer

  // ---- frames

  /** A sequence's progress depends on its own blocks only. */
  lemma ProgressFrame<X>(bs: nat, net: Net<X>, st: Store, st': Store, table: seq<nat>, view: seq<Column>,
                         toks: seq<Token>, l: nat)
    requires Progressed(bs, net, st, table, view, toks, l)
    requires Shaped(bs, st') && StoreLayered(st', net.layers)
    requires forall k :: 0 <= k < |table| ==>
      table[k] < |st.mem| && table[k] < |st'.mem| && st'.mem[table[k]] == st.mem[table[k]]
    ensures Progressed(bs, net, st', table, view, toks, l)
  {
    hide Cols, StoreLayered, FirstLayers;
    SameBlocksSameView(bs, st, st', table, |view|);
    if l > 0 {
      SameBlocksSameView(bs, st, st', table, |view| + |toks|);
    }
  }

  // ---- the batch

  /** A batch step: the tables, the old views, the tokens to feed and their positions. */
  datatype Batch = Batch(tables: seq<seq<nat>>, toks: seq<Token>, positions: seq<nat>)

  ghost predicate Matching(b: Batch, views: seq<seq<Column>>) {
    && |b.toks| == |b.tables| == |b.positions| == |views|
    && forall c :: 0 <= c < |views| ==> b.positions[c] == |views[c]|
  }

  /** Sequence c has done `done` layers, and its hidden row is right at layer `at`. */
  ghost predicate SeqAt<X>(bs: nat, net: Net<X>, st: Store, b: Batch, views: seq<seq<Column>>, c: nat, done: nat,
                           at: nat, x: X)
    requires c < |b.tables| && c < |b.toks| && c < |views|
  {
    && Progressed(bs, net, st, b.tables[c], views[c], [b.toks[c]], done)
    && RightRows(net, views[c], [b.toks[c]], at, [x])
  }

  /** Within layer l, the first s sequences have written their cells. */
  ghost predicate Halfway<X>(bs: nat, net: Net<X>, st0: Store, st: Store, b: Batch, views: seq<seq<Column>>,
                             rest: multiset<nat>, l: nat, s: nat, x: seq<X>, next: seq<X>) {
    && Matching(b, views) && l < net.layers && s <= |views| && |x| == |views| && |next| == s
    && Shaped(bs, st) && FreeListOk(st.pool) && StoreLayered(st, net.layers)
    && Counts(st.pool, All(b.tables) + rest) && Kept(st0, st, rest)
    && (forall c :: 0 <= c < s ==> SeqAt(bs, net, st, b, views, c, l + 1, l + 1, next[c]))
    && (forall c :: s <= c < |views| ==> SeqAt(bs, net, st, b, views, c, l, l, x[c]))
  }

  /** Between layers. */
  ghost predicate Level<X>(bs: nat, net: Net<X>, st0: Store, st: Store, b: Batch, views: seq<seq<Column>>,
                           rest: multiset<nat>, l: nat, x: seq<X>) {
    && Matching(b, views) && l <= net.layers && |x| == |views|
    && Shaped(bs, st) && FreeListOk(st.pool) && StoreLayered(st, net.layers)
    && Counts(st.pool, All(b.tables) + rest) && Kept(st0, st, rest)
    && forall c :: 0 <= c < |views| ==> SeqAt(bs, net, st, b, views, c, l, l, x[c])
  }

  /** Whatever a sequence had done in st it still has in st'. */
  ghost predicate Unmoved<X>(bs: nat, net: Net<X>, st: Store, st': Store, table: seq<nat>, view: seq<Column>,
                             tok: Token) {
    forall l: nat :: Progressed(bs, net, st, table, view, [tok], l) ==> Progressed(bs, net, st', table, view, [tok], l)
  }

  /** Sequence s's turn in layer l leaves the others where they were. */
  lemma TurnTaken<X>(bs: nat, net: Net<X>, st0: Store, st: Store, b: Batch, views: seq<seq<Column>>,
                     rest: multiset<nat>, l: nat, s: nat, x: seq<X>, next: seq<X>, st': Store, table': seq<nat>, y: X)
    requires Halfway(bs, net, st0, st, b, views, rest, l, s, x, next) && s < |views|
    requires Counts(st'.pool, multiset(table') + (AllBut(b.tables, s) + rest))
    requires Kept(st, st', AllBut(b.tables, s) + rest)
    requires Progressed(bs, net, st', table', views[s], [b.toks[s]], l + 1)
    requires RightRows(net, views[s], [b.toks[s]], l + 1, [y])
    ensures Halfway(bs, net, st0, st', b.(tables := b.tables[s := table']), views, rest, l, s + 1, x, next + [y])
  {
    var b' := b.(tables := b.tables[s := table']);
    assert Shaped(bs, st') && StoreLayered(st', net.layers);
    hide Progressed, RightRows, Counts, Kept, Shaped, StoreLayered, FreeListOk, SeqAt;
    Regrouped(b'.tables, s, rest);
    AllButUpdate(b.tables, s, table');
    CountsFreeList(st'.pool, All(b'.tables) + rest);
    KeptLess(st, st', AllBut(b.tables, s), rest);
    KeptTrans(st0, st, st', rest);
    forall c | 0 <= c < s + 1
      ensures SeqAt(bs, net, st', b', views, c, l + 1, l + 1, (next + [y])[c])
    {
      if c < s {
        OtherSeq(bs, net, st, st', b, views, s, c, rest, l + 1, next[c], table');
      } else {
        MySeq(bs, net, st', b', views, s, l, y);
      }
    }
    forall c | s + 1 <= c < |views|
      ensures SeqAt(bs, net, st', b', views, c, l, l, x[c])
    {
      OtherSeq(bs, net, st, st', b, views, s, c, rest, l, x[c], table');
    }
  }

  lemma MySeq<X>(bs: nat, net: Net<X>, st: Store, b: Batch, views: seq<seq<Column>>, s: nat, l: nat, y: X)
    requires s < |b.tables| && s < |b.toks| && s < |views|
    requires Progressed(bs, net, st, b.tables[s], views[s], [b.toks[s]], l + 1)
    requires RightRows(net, views[s], [b.toks[s]], l + 1, [y])
    ensures SeqAt(bs, net, st, b, views, s, l + 1, l + 1, y)
  {
    hide Progressed, RightRows;
  }

  lemma OtherSeq<X>(bs: nat, net: Net<X>, st: Store, st': Store, b: Batch, views: seq<seq<Column>>, s: nat, c: nat,
                    rest: multiset<nat>, l: nat, x: X, table': seq<nat>)
    requires Matching(b, views) && s < |views| && c < |views| && c != s && SeqAt(bs, net, st, b, views, c, l, l, x)
    requires Kept(st, st', AllBut(b.tables, s) + rest) && Shaped(bs, st') && StoreLayered(st', net.layers)
    ensures SeqAt(bs, net, st', b.(tables := b.tables[s := table']), views, c, l, l, x)
  {
    hide Progressed, RightRows, Kept, Shaped, StoreLayered, AllBut;
    OtherTurn(bs, net, st, st', b, views, s, c, rest);
  }

  lemma OtherTurn<X>(bs: nat, net: Net<X>, st: Store, st': Store, b: Batch, views: seq<seq<Column>>, s: nat, c: nat,
                     rest: multiset<nat>)
    requires Matching(b, views) && s < |views| && c < |views| && c != s
    requires Kept(st, st', AllBut(b.tables, s) + rest) && Shaped(bs, st') && StoreLayered(st', net.layers)
    ensures Unmoved(bs, net, st, st', b.tables[c], views[c], b.toks[c])
  {
    OthersHold(b.tables, s, c);
    KeptLess(st, st', AllBut(b.tables, s), rest);
    assert forall k :: 0 <= k < |b.tables[c]| ==>
      b.tables[c][k] < |st.mem| && b.tables[c][k] < |st'.mem| && st'.mem[b.tables[c][k]] == st.mem[b.tables[c][k]];
    hide Progressed, Shaped, StoreLayered, Kept, AllBut;
    forall done: nat | Progressed(bs, net, st, b.tables[c], views[c], [b.toks[c]], done)
      ensures Progressed(bs, net, st', b.tables[c], views[c], [b.toks[c]], done)
    {
      ProgressFrame(bs, net, st, st', b.tables[c], views[c], [b.toks[c]], done);
    }
  }

  lemma MyTurn<X>(bs: nat, net: Net<X>, st0: Store, st: Store, b: Batch, views: seq<seq<Column>>, rest: multiset<nat>,
                  l: nat, s: nat, x: seq<X>, next: seq<X>)
    requires Halfway(bs, net, st0, st, b, views, rest, l, s, x, next) && s < |views|
    ensures Prefilling(bs, net, st, st, b.tables[s], views[s], [b.toks[s]], AllBut(b.tables, s) + rest, l, [x[s]])
    ensures b.positions[s] == |views[s]| && Shaped(bs, st) && FreeListOk(st.pool) && InRange(st, b.tables[s])
    ensures |views[s]| <= |b.tables[s]| * bs && Layered(views[s], net.layers) && StoreLayered(st, net.layers)
  {
    Regrouped(b.tables, s, rest);
    OthersAreLive(st, b.tables[s], AllBut(b.tables, s) + rest);
    assert Kept(st, st, AllBut(b.tables, s) + rest);
    assert SeqAt(bs, net, st, b, views, s, l, l, x[s]);
    hide RightRows, Counts, Kept, Gather, FirstLayers, Cols;
  }

  /**
   One sequence's share of one layer: write its cell, gather it back, attend. `col` is what the
   write leaves at its position.
   */
  method Turn<X>(bs: nat, net: Net<X>, st: Store, b: Batch, l: nat, s: nat, x: seq<X>, ghost next: seq<X>,
                 ghost st0: Store, ghost views: seq<seq<Column>>, ghost rest: multiset<nat>, ghost from: seq<nat>)
    returns (r: Option<(Store, Batch, X)>, ghost col: Column)
    requires bs > 0 && Halfway(bs, net, st0, st, b, views, rest, l, s, x, next)
    requires s < |views| == |b.tables| == |b.positions|
    ensures r.Some? ==> Halfway(bs, net, st0, r.value.0, r.value.1, views, rest, l, s + 1, x, next + [r.value.2])
    ensures r.Some? ==> r.value.1.toks == b.toks && r.value.1.positions == b.positions
    ensures r.Some? ==> Placed(bs, st, b.tables, b.positions, s, col, r.value.0, r.value.1.tables)
    ensures Sound(bs, st, b.tables, b.positions, from, rest) ==> r.Some?
    ensures Tidy(bs, b.tables[s], b.positions[s] + 1) && r.None? ==>
      Refused(bs, st, b.tables[s], b.positions[s])
  {
    HalfwaySizes(bs, net, st0, st, b, views, rest, l, s, x, next);
    hide *;
    MyTurn(bs, net, st0, st, b, views, rest, l, s, x, next);
    ghost var others, mine := AllBut(b.tables, s) + rest, 0;
    col := [];
    if Sound(bs, st, b.tables, b.positions, from, rest) {
      SoundAt(bs, st, b.tables, b.positions, from, rest, s);
      mine := from[s];
    }
    ghost var wrote;
    var one;
    one, wrote := PrefillLayer(bs, net, st, b.tables[s], b.positions[s], l, [x[s]], st, views[s], [b.toks[s]], others,
      mine);
    if one.None? {
      if Tidy(bs, b.tables[s], b.positions[s] + 1) {
        IsReady(bs, st, b.tables[s], others);
        NoRoom(bs, st, b.tables[s], b.positions[s], others);
      }
      return None, col;
    }
    var st', table', y := one.value.0, one.value.1, one.value.2;
    col := wrote[0];
    assert wrote == [col];
    PlacedIs(bs, st, b.tables, b.positions, s, col, st', table');
    TurnResult(bs, net, st, st', table', views[s], [b.toks[s]], others, l, y);
    TurnTaken(bs, net, st0, st, b, views, rest, l, s, x, next, st', table', y[0]);
    r := Some((st', b.(tables := b.tables[s := table']), y[0]));
  }

  /** No column can be written at this position. */
  ghost predicate Refused(bs: nat, st: Store, table: seq<nat>, pos: nat) {
    forall col :: WriteOne(bs, st, table, pos, col).OutOfBlocks?
  }

  lemma NoRoom(bs: nat, st: Store, table: seq<nat>, pos: nat, others: multiset<nat>)
    requires Ready(bs, st, table, others) && Tidy(bs, table, pos + 1) && !CanAfford(bs, st, table, pos, pos + 1)
    ensures Refused(bs, st, table, pos)
  {
    forall col
      ensures WriteOne(bs, st, table, pos, col).OutOfBlocks?
    {
      NotOne(bs, st, table, pos, col, others);
    }
  }

  lemma NotOne(bs: nat, st: Store, table: seq<nat>, pos: nat, col: Column, others: multiset<nat>)
    requires Ready(bs, st, table, others) && Tidy(bs, table, pos + 1) && !CanAfford(bs, st, table, pos, pos + 1)
    ensures WriteOne(bs, st, table, pos, col).OutOfBlocks?
  {
    hide *;
    ReadySize(bs, st, table, others);
    ReadyParts(bs, st, table, others);
    AffordIs(bs, st, table, pos, pos + 1);
    WriteExactly(bs, st, table, pos, [col], others);
    WriteOneIs(bs, st, table, pos, col);
  }

  /** One write of sequence s took the batch from one store and tables to another. */
  ghost predicate Placed(bs: nat, st: Store, tables: seq<seq<nat>>, positions: seq<nat>, s: nat, col: Column,
                         st': Store, tables': seq<seq<nat>>) {
    && s < |tables| == |positions|
    && var w := WriteOne(bs, st, tables[s], positions[s], col);
       w.Written? && st' == w.store && tables' == tables[s := w.table]
  }

  lemma PlacedIs(bs: nat, st: Store, tables: seq<seq<nat>>, positions: seq<nat>, s: nat, col: Column, st': Store,
                 table': seq<nat>)
    requires s < |tables| == |positions| && Wrote(bs, st, tables[s], positions[s], [col], st', table')
    ensures Placed(bs, st, tables, positions, s, col, st', tables[s := table'])
  {
    hide Write;
  }

  // ---- what the turns amount to

  /**
   After s turns in layer l: as if the sequences that have written had written their present columns
   once, in order.
   */
  ghost predicate Turned(bs: nat, st0: Store, b0: Batch, st: Store, b: Batch, cur: seq<Column>, from: seq<nat>,
                         rest: multiset<nat>, l: nat, s: nat) {
    && |b0.tables| == |b0.positions| == |b.tables| && b.positions == b0.positions && s <= |b.tables|
    && Sound(bs, st0, b0.tables, b0.positions, from, rest) && Sound(bs, st, b.tables, b.positions, from, rest)
    && |cur| == (if l == 0 then s else |b.tables|)
    && WriteEach(bs, st0, b0.tables, b0.positions, cur, |cur|) == Some(Each(st, b.tables))
  }

  lemma NoTurns(bs: nat, st0: Store, b0: Batch, from: seq<nat>, rest: multiset<nat>)
    requires Sound(bs, st0, b0.tables, b0.positions, from, rest)
    ensures Turned(bs, st0, b0, st0, b0, [], from, rest, 0, 0)
  {
    SoundSize(bs, st0, b0.tables, b0.positions, from, rest);
    hide Sound;
  }

  lemma NextLayer(bs: nat, st0: Store, b0: Batch, st: Store, b: Batch, cur: seq<Column>, from: seq<nat>,
                  rest: multiset<nat>, l: nat)
    requires Turned(bs, st0, b0, st, b, cur, from, rest, l, |b.tables|)
    ensures Turned(bs, st0, b0, st, b, cur, from, rest, l + 1, 0)
  {
    hide Sound, WriteEach;
  }

  lemma OneTurnMore(bs: nat, st0: Store, b0: Batch, st: Store, b: Batch, cur: seq<Column>, from: seq<nat>,
                    rest: multiset<nat>, l: nat, s: nat, col: Column, st': Store, b': Batch)
    requires Turned(bs, st0, b0, st, b, cur, from, rest, l, s) && s < |b.tables|
    requires Placed(bs, st, b.tables, b.positions, s, col, st', b'.tables) && b'.positions == b.positions
    ensures Turned(bs, st0, b0, st', b', if l == 0 then cur + [col] else cur[s := col], from, rest, l, s + 1)
  {
    var next := if l == 0 then cur + [col] else cur[s := col];
    hide Sound, WriteOne, WriteEach;
    PlacedSound(bs, st, b.tables, b.positions, from, rest, s, col, st', b'.tables);
    if l == 0 {
      EachSame(bs, st0, b0.tables, b0.positions, cur, next, s);
      EachStep(bs, st0, b0.tables, b0.positions, next, s, Each(st, b.tables));
    } else {
      EachUpdate(bs, st0, b0.tables, b0.positions, cur, |cur|, from, rest, s, col, Each(st, b.tables));
      assert b.tables[s := b.tables[s]] == b.tables;
    }
  }

  lemma PlacedSound(bs: nat, st: Store, tables: seq<seq<nat>>, positions: seq<nat>, from: seq<nat>,
                    rest: multiset<nat>, s: nat, col: Column, st': Store, tables': seq<seq<nat>>)
    requires Sound(bs, st, tables, positions, from, rest) && Placed(bs, st, tables, positions, s, col, st', tables')
    ensures Sound(bs, st', tables', positions, from, rest)
  {
    hide Sound, WriteOne;
    OneStep(bs, st, tables, positions, from, rest, s, col);
  }

  // ---- the same when blocks may be shared

  /** After s turns in layer l, from a batch that may share blocks. */
  ghost predicate TurnedShared(bs: nat, st0: Store, b0: Batch, st: Store, b: Batch, cur: seq<Column>,
                               rest: multiset<nat>, l: nat, s: nat) {
    && |b0.tables| == |b0.positions| == |b.tables| && b.positions == b0.positions && s <= |b.tables| && bs > 0
    && Prior(bs, st0, b0.tables, b0.positions, rest, 0)
    && |cur| == (if l == 0 then s else |b.tables|)
    && WriteEach(bs, st0, b0.tables, b0.positions, cur, |cur|) == Some(Each(st, b.tables))
  }

  lemma SharedParts(bs: nat, st0: Store, b0: Batch, st: Store, b: Batch, cur: seq<Column>, rest: multiset<nat>,
                    l: nat, s: nat)
    requires TurnedShared(bs, st0, b0, st, b, cur, rest, l, s)
    ensures |b0.tables| == |b0.positions| == |b.tables| && b.positions == b0.positions && s <= |b.tables| && bs > 0
    ensures Prior(bs, st0, b0.tables, b0.positions, rest, 0) && |cur| == (if l == 0 then s else |b.tables|)
    ensures WriteEach(bs, st0, b0.tables, b0.positions, cur, |cur|) == Some(Each(st, b.tables))
  {
    hide Prior, WriteEach;
  }

  lemma SharedStarts(bs: nat, st0: Store, b0: Batch, rest: multiset<nat>)
    requires |b0.tables| == |b0.positions| && bs > 0 && Prior(bs, st0, b0.tables, b0.positions, rest, 0)
    ensures TurnedShared(bs, st0, b0, st0, b0, [], rest, 0, 0)
  {
    hide Prior;
  }

  lemma SharedLayer(bs: nat, st0: Store, b0: Batch, st: Store, b: Batch, cur: seq<Column>, rest: multiset<nat>, l: nat)
    requires TurnedShared(bs, st0, b0, st, b, cur, rest, l, |b.tables|)
    ensures TurnedShared(bs, st0, b0, st, b, cur, rest, l + 1, 0)
  {
    hide Prior, WriteEach;
  }

  lemma OneSharedTurn(bs: nat, st0: Store, b0: Batch, st: Store, b: Batch, cur: seq<Column>, rest: multiset<nat>,
                      l: nat, s: nat, col: Column, st': Store, b': Batch)
    requires TurnedShared(bs, st0, b0, st, b, cur, rest, l, s) && s < |b.tables|
    requires Placed(bs, st, b.tables, b.positions, s, col, st', b'.tables) && b'.positions == b.positions
    ensures l == 0 || s < |cur|
    ensures TurnedShared(bs, st0, b0, st', b', if l == 0 then cur + [col] else cur[s := col], rest, l, s + 1)
  {
    var next := if l == 0 then cur + [col] else cur[s := col];
    hide Prior, WriteOne, WriteEach;
    if l == 0 {
      EachSame(bs, st0, b0.tables, b0.positions, cur, next, s);
      EachStep(bs, st0, b0.tables, b0.positions, next, s, Each(st, b.tables));
    } else {
      EachRewrite(bs, st0, b0.tables, b0.positions, rest, cur, s, col, Each(st, b.tables));
      assert b.tables[s := b.tables[s]] == b.tables;
    }
  }

  lemma {:induction false} LaterTables(bs: nat, st: Store, tables: seq<seq<nat>>, positions: seq<nat>,
                                       cols: seq<Column>, n: nat, c: nat)
    requires n <= c < |tables| == |positions| && n <= |cols|
    ensures WriteEach(bs, st, tables, positions, cols, n).Some? ==>
      WriteEach(bs, st, tables, positions, cols, n).value.tables[c] == tables[c]
    decreases n
  {
    hide WriteOne;
    if n > 0 {
      LaterTables(bs, st, tables, positions, cols, n - 1, c);
    }
  }

  /** Whose turn it is in the first layer has its old table, tidy; after it the blocks are everybody's own. */
  lemma SharedTurn(bs: nat, st0: Store, b0: Batch, st: Store, b: Batch, cur: seq<Column>, rest: multiset<nat>,
                   l: nat, s: nat)
    requires TurnedShared(bs, st0, b0, st, b, cur, rest, l, s) && s < |b.tables|
    ensures |b.positions| == |b.tables| && bs > 0
    ensures l == 0 ==> Tidy(bs, b.tables[s], b.positions[s] + 1)
    ensures l > 0 ==> Sound(bs, st, b.tables, b.positions, Pages(bs, b.positions), rest)
  {
    hide *;
    SharedParts(bs, st0, b0, st, b, cur, rest, l, s);
    if l == 0 {
      LaterTables(bs, st0, b0.tables, b0.positions, cur, s, s);
      PriorParts(bs, st0, b0.tables, b0.positions, rest, 0);
    } else {
      EachIsSound(bs, st0, b0.tables, b0.positions, rest, cur, Each(st, b.tables));
    }
  }

  /** A refusal in the first layer means that the batch cannot be made ready. */
  lemma RefusedBatch(bs: nat, st0: Store, b0: Batch, st: Store, b: Batch, cur: seq<Column>, rest: multiset<nat>, s: nat)
    requires TurnedShared(bs, st0, b0, st, b, cur, rest, 0, s) && s < |b.tables| == |b.positions|
    requires Refused(bs, st, b.tables[s], b.positions[s])
    ensures |b0.tables| == |b0.positions|
    ensures ReadyEach(bs, st0, b0.tables, b0.positions, |b0.tables|) == None
  {
    var next := cur + [[]];
    hide Prior, WriteOne, WriteEach, ReadyEach;
    EachSame(bs, st0, b0.tables, b0.positions, cur, next, s);
    EachStep(bs, st0, b0.tables, b0.positions, next, s, Each(st, b.tables));
    EachIsReady(bs, st0, b0.tables, b0.positions, rest, next, s + 1);
    NeverReady(bs, st0, b0.tables, b0.positions, s + 1, |b0.tables|);
  }

  lemma {:induction false} NeverReady(bs: nat, st: Store, tables: seq<seq<nat>>, positions: seq<nat>, n: nat, k: nat)
    requires n <= k <= |tables| == |positions| && ReadyEach(bs, st, tables, positions, n) == None
    ensures ReadyEach(bs, st, tables, positions, k) == None
    decreases k
  {
    hide ReadyOne;
    if n < k {
      NeverReady(bs, st, tables, positions, n, k - 1);
    }
  }

  /** A batch that came through left what its sequences, fed alone in turn, leave. */
  lemma AsIfAloneShared<X>(bs: nat, net: Net<X>, st0: Store, b0: Batch, views: seq<seq<Column>>, rest: multiset<nat>,
                           st: Store, b: Batch, cur: seq<Column>, l: nat, outs: seq<Token>)
    requires l > 0 && TurnedShared(bs, st0, b0, st, b, cur, rest, l, 0) && Tidies(bs, b0.tables, b0.positions)
    requires |views| == |outs| == |b0.tables| == |b0.toks| == |b0.positions|
    requires Reading(bs, Each(st0, b0.tables), b0.tables, b0.positions, views, rest, 0)
    requires forall c :: 0 <= c < |views| ==> b0.positions[c] == |views[c]|
    requires forall c :: 0 <= c < |views| ==> Solo(bs, net, st, b.tables[c], views[c], b0.toks[c], outs[c])
    ensures InferEach(bs, AsModel(net), st0, b0.tables, b0.positions, b0.toks, |b0.tables|) ==
      Some(Fed(st, b.tables, outs))
    ensures ReadyEach(bs, st0, b0.tables, b0.positions, |b0.tables|).Some?
  {
    hide *;
    var m, n := AsModel(net), |b0.tables|;
    SharedParts(bs, st0, b0, st, b, cur, rest, l, 0);
    EachIsReady(bs, st0, b0.tables, b0.positions, rest, cur, n);
    forall c | 0 <= c < n
      ensures cur[c] == m.col(views[c], b0.toks[c])
    {
      ColumnWas(bs, st0, b0.tables, b0.positions, rest, cur, c, Each(st, b.tables), views[c]);
      SoloReads(bs, net, st, b.tables[c], views[c], b0.toks[c], outs[c]);
    }
    forall c | 0 <= c < n
      ensures outs[c] == m.pick(views[c], b0.toks[c])
    {
      SoloReads(bs, net, st, b.tables[c], views[c], b0.toks[c], outs[c]);
    }
    InferEachIs(bs, m, st0, b0.tables, b0.positions, b0.toks, views, cur, n, rest);
    PicksAre(m, views, b0.toks, outs);
  }

  lemma PicksAre(m: Model, views: seq<seq<Column>>, toks: seq<Token>, outs: seq<Token>)
    requires |views| == |toks| == |outs| && forall c :: 0 <= c < |outs| ==> outs[c] == m.pick(views[c], toks[c])
    ensures Picks(m, views, toks, |outs|) == outs
  {
  }

  lemma SoloReads<X>(bs: nat, net: Net<X>, st: Store, table: seq<nat>, view: seq<Column>, tok: Token, out: Token)
    requires Solo(bs, net, st, table, view, tok, out)
    ensures Shaped(bs, st) && InRange(st, table) && |view| + 1 <= |table| * bs
    ensures Gather(bs, st, table, |view| + 1) == view + [AsModel(net).col(view, tok)]
    ensures out == AsModel(net).pick(view, tok)
    ensures (view + [AsModel(net).col(view, tok)])[|view|] == AsModel(net).col(view, tok)
  {
    hide Gather, Shaped, InRange, AsModel;
  }

  /** The column read back at a sequence's position is the one written last. */
  lemma ColumnWas(bs: nat, st: Store, tables: seq<seq<nat>>, positions: seq<nat>, rest: multiset<nat>,
                  cols: seq<Column>, c: nat, e: Each, view: seq<Column>)
    requires Prior(bs, st, tables, positions, rest, 0) && |tables| == |positions| == |cols| && c < |tables| && bs > 0
    requires WriteEach(bs, st, tables, positions, cols, |tables|) == Some(e) && c < |e.tables|
    requires positions[c] == |view|
    ensures Shaped(bs, e.store) && InRange(e.store, e.tables[c]) && |view| + 1 <= |e.tables[c]| * bs
    ensures |Gather(bs, e.store, e.tables[c], |view| + 1)| == |view| + 1
    ensures Gather(bs, e.store, e.tables[c], |view| + 1)[|view|] == cols[c]
  {
    hide *;
    var n, from := |tables|, Pages(bs, positions);
    EachIsReady(bs, st, tables, positions, rest, cols, n);
    EachPrior(bs, st, tables, positions, rest, n);
    var r := ReadyEach(bs, st, tables, positions, n).value;
    PriorIsSound(bs, r.store, r.tables, positions, rest);
    SoundAt(bs, r.store, r.tables, positions, from, rest, c);
    EachReads(bs, r.store, r.tables, positions, cols, n, from, rest, c, e);
    GatherLength(bs, e.store, e.tables[c], |view| + 1);
    GatherLength(bs, r.store, r.tables[c], |view|);
    LastOf(Gather(bs, r.store, r.tables[c], |view|), cols[c]);
  }

  lemma LastOf(view: seq<Column>, col: Column)
    ensures (view + [col])[|view|] == col
  {
  }

  lemma HalfwaySizes<X>(bs: nat, net: Net<X>, st0: Store, st: Store, b: Batch, views: seq<seq<Column>>,
                        rest: multiset<nat>, l: nat, s: nat, x: seq<X>, next: seq<X>)
    requires Halfway(bs, net, st0, st, b, views, rest, l, s, x, next)
    ensures |b.tables| == |b.toks| == |b.positions| == |views| == |x| && s <= |views| && l < net.layers
  {
  }

  lemma TurnResult<X>(bs: nat, net: Net<X>, st: Store, st': Store, table': seq<nat>, view: seq<Column>,
                      toks: seq<Token>, others: multiset<nat>, l: nat, y: seq<X>)
    requires Prefilling(bs, net, st, st', table', view, toks, others, l + 1, y) && |toks| == 1
    ensures Layered(view, net.layers) && |y| == 1 && y == [y[0]]
    ensures Progressed(bs, net, st', table', view, toks, l + 1) && RightRows(net, view, toks, l + 1, [y[0]])
    ensures Counts(st'.pool, multiset(table') + others) && Kept(st, st', others)
  {
    assert Layered(view, net.layers);
    RightSize(net, view, toks, l + 1, y);
    hide Gather, RightRows, Counts, Kept, FirstLayers, Cols;
    assert y == [y[0]];
  }

  lemma LevelUp<X>(bs: nat, net: Net<X>, st0: Store, st: Store, b: Batch, views: seq<seq<Column>>,
                   rest: multiset<nat>, l: nat, x: seq<X>, next: seq<X>)
    ensures Level(bs, net, st0, st, b, views, rest, l, x) && l < net.layers ==>
      Halfway(bs, net, st0, st, b, views, rest, l, 0, x, [])
    ensures Halfway(bs, net, st0, st, b, views, rest, l, |views|, x, next) ==>
      Level(bs, net, st0, st, b, views, rest, l + 1, next)
  {
    hide Progressed, RightRows, Counts, Kept, Shaped, StoreLayered, FreeListOk;
  }

  /** Each sequence's view grew by its own column, and its token is what solo decoding samples. */
  ghost predicate Solo<X>(bs: nat, net: Net<X>, st: Store, table: seq<nat>, view: seq<Column>, tok: Token, out: Token) {
    var m := AsModel(net);
    && Shaped(bs, st) && InRange(st, table) && |view| + 1 <= |table| * bs
    && Gather(bs, st, table, |view| + 1) == view + [m.col(view, tok)]
    && out == m.pick(view, tok)
  }

  lemma SoloPlain<X>(bs: nat, net: Net<X>, st: Store, table: seq<nat>, view: seq<Column>, tok: Token, out: Token)
    requires Solo(bs, net, st, table, view, tok, out) && Layered(view, net.layers)
    ensures LeftPlain(bs, net, st, table, view, [tok], out)
  {
    OneColumn(net, view, tok);
    PassIsPlain(net, view, [tok]);
    hide Cols, Gather, Shaped, InRange, AsModel, Computed;
    assert (view + [AsModel(net).col(view, tok)])[..|view|] == view;
  }

  lemma SolosPlain<X>(bs: nat, net: Net<X>, st0: Store, b0: Batch, views: seq<seq<Column>>, st: Store,
                      tables: seq<seq<nat>>, outs: seq<Token>)
    requires |views| == |b0.tables| == |b0.toks| == |tables| == |outs|
    requires forall c :: 0 <= c < |views| ==> Progressed(bs, net, st0, b0.tables[c], views[c], [b0.toks[c]], 0)
    requires forall c :: 0 <= c < |views| ==> Solo(bs, net, st, tables[c], views[c], b0.toks[c], outs[c])
    ensures forall c :: 0 <= c < |views| ==> LeftPlain(bs, net, st, tables[c], views[c], [b0.toks[c]], outs[c])
  {
    forall c | 0 <= c < |views|
      ensures LeftPlain(bs, net, st, tables[c], views[c], [b0.toks[c]], outs[c])
    {
      assert Layered(views[c], net.layers);
      SoloPlain(bs, net, st, tables[c], views[c], b0.toks[c], outs[c]);
      hide *;
    }
  }

  lemma SeqEnds<X>(bs: nat, net: Net<X>, st: Store, b: Batch, views: seq<seq<Column>>, c: nat, x: X)
    requires c < |b.tables| && c < |b.toks| && c < |views| && net.layers > 0
    requires SeqAt(bs, net, st, b, views, c, net.layers, net.layers, x)
    ensures Solo(bs, net, st, b.tables[c], views[c], b.toks[c], net.head(x))
  {
    var view, toks, table := views[c], [b.toks[c]], b.tables[c];
    var n := |view| + 1;
    assert Layered(view, net.layers);
    OneColumn(net, view, b.toks[c]);
    ColsAt(net, view, toks, 0);
    var row := [x];
    LastRow(net, view, toks, row);
    assert row[|row| - 1] == x && toks[|toks| - 1] == b.toks[c];
    assert Cols(net, view, toks)[..|view| + |toks| - 1] == view;
    hide Cols, RowAt, StoreLayered, RightRows, FirstLayers, AsModel, Gather, Shaped, InRange;
    LayeredView(bs, st, table, n, net.layers);
    GatherPrefix(bs, st, table, |view|, n);
    AllLayers(net, Gather(bs, st, table, n), view, toks);
    assert n <= |table| * bs;
    assert Gather(bs, st, table, n) == view + [AsModel(net).col(view, b.toks[c])];
    assert net.head(x) == AsModel(net).pick(view, b.toks[c]);
    assert Shaped(bs, st);
    assert InRange(st, table);
  }

  lemma OneColumn<X>(net: Net<X>, view: seq<Column>, tok: Token)
    ensures Cols(net, view, [tok]) == view + [AsModel(net).col(view, tok)]
  {
    hide TokenColumn, AsModel;
    var m, one := AsModel(net), [tok];
    var next := view + [m.col(view, tok)];
    assert one[0] == tok && one[1..] == [];
    assert Extend(m, next, []) == next;
    assert Extend(m, view, one) == Extend(m, next, one[1..]);
  }

  /** A sound batch that came through left what its sequences, fed alone in turn, leave. */
  lemma AsIfAlone<X>(bs: nat, net: Net<X>, st0: Store, b0: Batch, views: seq<seq<Column>>, from: seq<nat>,
                     rest: multiset<nat>, st: Store, b: Batch, cur: seq<Column>, l: nat, outs: seq<Token>)
    requires l > 0 && Turned(bs, st0, b0, st, b, cur, from, rest, l, 0) && |views| == |outs| == |b0.tables| == |b0.toks|
    requires Shaped(bs, st0) && forall c :: 0 <= c < |views| ==>
      && InRange(st0, b0.tables[c]) && b0.positions[c] == |views[c]| <= |b0.tables[c]| * bs
      && Gather(bs, st0, b0.tables[c], |views[c]|) == views[c]
    requires forall c :: 0 <= c < |views| ==> Solo(bs, net, st, b.tables[c], views[c], b0.toks[c], outs[c])
    ensures InferEach(bs, AsModel(net), st0, b0.tables, b0.positions, b0.toks, |b0.tables|) ==
      Some(Fed(st, b.tables, outs))
  {
    var m := AsModel(net);
    hide Sound, WriteEach, Gather, Shaped, InRange, InferEach, AsModel;
    forall c | 0 <= c < |views|
      ensures cur[c] == m.col(views[c], b0.toks[c]) && outs[c] == m.pick(views[c], b0.toks[c])
    {
      EachReads(bs, st0, b0.tables, b0.positions, cur, |cur|, from, rest, c, Each(st, b.tables));
      var n := |views[c]|;
      assert Gather(bs, st, b.tables[c], n + 1)[n] == cur[c];
    }
    var e, alone := EachInfers(bs, m, st0, b0.tables, b0.positions, b0.toks, views, cur, |cur|, from, rest);
    assert alone == outs;
  }

  /** All sequences go through layer l. */
  method OneLayer<X>(bs: nat, net: Net<X>, st1: Store, b1: Batch, l: nat, x: seq<X>, ghost st0: Store,
                     ghost b0: Batch, ghost views: seq<seq<Column>>, ghost rest: multiset<nat>, ghost from: seq<nat>,
                     ghost cur1: seq<Column>, ghost fits: bool, ghost tidy: bool)
    returns (r: Option<(Store, Batch, seq<X>)>, ghost cur: seq<Column>)
    requires bs > 0 && l < net.layers && Level(bs, net, st0, st1, b1, views, rest, l, x)
    requires fits ==> Turned(bs, st0, b0, st1, b1, cur1, from, rest, l, 0)
    requires tidy ==> TurnedShared(bs, st0, b0, st1, b1, cur1, rest, l, 0)
    ensures r.Some? ==> Level(bs, net, st0, r.value.0, r.value.1, views, rest, l + 1, r.value.2)
    ensures r.Some? ==> r.value.1.toks == b1.toks && r.value.1.positions == b1.positions
    ensures fits ==> r.Some? && Turned(bs, st0, b0, r.value.0, r.value.1, cur, from, rest, l + 1, 0)
    ensures tidy && r.Some? ==> TurnedShared(bs, st0, b0, r.value.0, r.value.1, cur, rest, l + 1, 0)
    ensures tidy && r.None? ==> NotReady(bs, st0, b0)
  {
    LevelSizes(bs, net, st0, st1, b1, views, rest, l, x);
    hide *;
    cur := cur1;
    var st, b := st1, b1;
    var next: seq<X> := [];
    LevelUp(bs, net, st0, st, b, views, rest, l, x, next);
    var s := 0;
    while s < |b1.tables|
      invariant s <= |views| && Halfway(bs, net, st0, st, b, views, rest, l, s, x, next)
      invariant b.toks == b1.toks && b.positions == b1.positions
      invariant fits ==> Turned(bs, st0, b0, st, b, cur, from, rest, l, s)
      invariant tidy ==> TurnedShared(bs, st0, b0, st, b, cur, rest, l, s)
    {
      HalfwaySizes(bs, net, st0, st, b, views, rest, l, s, x, next);
      if fits {
        TurnedSound(bs, st0, b0, st, b, cur, from, rest, l, s);
      }
      if tidy {
        SharedTurn(bs, st0, b0, st, b, cur, rest, l, s);
      }
      ghost var col;
      var turn;
      turn, col := Turn(bs, net, st, b, l, s, x, next, st0, views, rest,
        if tidy && l > 0 && !fits then Pages(bs, b.positions) else from);
      if turn.None? {
        if tidy {
          RefusedBatch(bs, st0, b0, st, b, cur, rest, s);
          NotReadyIs(bs, st0, b0);
        }
        return None, cur;
      }
      if tidy {
        OneSharedTurn(bs, st0, b0, st, b, cur, rest, l, s, col, turn.value.0, turn.value.1);
      }
      if fits {
        OneTurnMore(bs, st0, b0, st, b, cur, from, rest, l, s, col, turn.value.0, turn.value.1);
      }
      if fits || tidy {
        cur := if l == 0 then cur + [col] else cur[s := col];
      }
      st, b, next := turn.value.0, turn.value.1, next + [turn.value.2];
      s := s + 1;
    }
    HalfwaySizes(bs, net, st0, st, b, views, rest, l, s, x, next);
    LevelUp(bs, net, st0, st, b, views, rest, l, x, next);
    if fits {
      NextLayer(bs, st0, b0, st, b, cur, from, rest, l);
    }
    if tidy {
      SharedLayer(bs, st0, b0, st, b, cur, rest, l);
    }
    r := Some((st, b, next));
  }

  /** The room and the copies of the batch cannot all be had. */
  ghost predicate NotReady(bs: nat, st: Store, b: Batch) {
    |b.tables| == |b.positions| && ReadyEach(bs, st, b.tables, b.positions, |b.tables|) == None
  }

  lemma NotReadyIs(bs: nat, st: Store, b: Batch)
    requires |b.tables| == |b.positions|
    ensures NotReady(bs, st, b) <==> ReadyEach(bs, st, b.tables, b.positions, |b.tables|) == None
  {
    hide ReadyEach;
  }

  lemma TurnedSound(bs: nat, st0: Store, b0: Batch, st: Store, b: Batch, cur: seq<Column>, from: seq<nat>,
                    rest: multiset<nat>, l: nat, s: nat)
    requires Turned(bs, st0, b0, st, b, cur, from, rest, l, s)
    ensures Sound(bs, st, b.tables, b.positions, from, rest) && (l > 0 ==> s <= |b.tables| == |cur|)
  {
    hide Sound, WriteEach;
  }

  lemma LevelSizes<X>(bs: nat, net: Net<X>, st0: Store, st: Store, b: Batch, views: seq<seq<Column>>,
                      rest: multiset<nat>, l: nat, x: seq<X>)
    requires Level(bs, net, st0, st, b, views, rest, l, x)
    ensures |b.tables| == |b.toks| == |b.positions| == |views| == |x|
  {
  }

  /** The batch's old views, sequence by sequence. */
  lemma ViewsThere<X>(bs: nat, net: Net<X>, st: Store, b: Batch, views: seq<seq<Column>>)
    requires |views| == |b.tables| == |b.toks| == |b.positions| && forall c :: 0 <= c < |views| ==>
      b.positions[c] == |views[c]|
    requires forall c :: 0 <= c < |views| ==> Progressed(bs, net, st, b.tables[c], views[c], [b.toks[c]], 0)
    requires Shaped(bs, st)
    ensures forall c :: 0 <= c < |views| ==>
      && InRange(st, b.tables[c]) && b.positions[c] == |views[c]| <= |b.tables[c]| * bs
      && Gather(bs, st, b.tables[c], |views[c]|) == views[c]
  {
    hide Gather, Shaped, InRange, StoreLayered, Cols;
  }

  /**
   One step for the whole batch: all sequences go through a layer before any goes
   through the next. None stands for an exception: it comes exactly when the blocks that
   the sequences, in turn, add or copy are not free. Otherwise the step leaves the very
   store, tables and tokens of the sequences run alone, one after the other.
   */
  method ForwardDecodeBatch<X>(bs: nat, net: Net<X>, st0: Store, b0: Batch, ghost views: seq<seq<Column>>,
                               ghost rest: multiset<nat>, ghost from: seq<nat>)
    returns (r: Option<(Store, seq<seq<nat>>, seq<Token>)>)
    requires bs > 0 && net.layers > 0 && Shaped(bs, st0) && FreeListOk(st0.pool) && StoreLayered(st0, net.layers)
    requires |views| == |b0.tables|
    requires (|b0.positions| == |views| ==> forall c :: 0 <= c < |views| ==> b0.positions[c] == |views[c]|)
    requires Counts(st0.pool, All(b0.tables) + rest) && Kept(st0, st0, rest)
    requires |b0.toks| == |views| ==> forall c :: 0 <= c < |views| ==>
      Progressed(bs, net, st0, b0.tables[c], views[c], [b0.toks[c]], 0)
    ensures |b0.toks| != |b0.tables| || |b0.positions| != |b0.tables| ==> r.None?
    ensures r.Some? ==>
      var (st, tables, outs) := r.value;
      && |tables| == |outs| == |views| == |b0.toks|
      && Shaped(bs, st) && FreeListOk(st.pool) && StoreLayered(st, net.layers)
      && Counts(st.pool, All(tables) + rest) && Kept(st0, st, rest)
      && forall c :: 0 <= c < |views| ==>
           && Solo(bs, net, st, tables[c], views[c], b0.toks[c], outs[c])
           && LeftPlain(bs, net, st, tables[c], views[c], [b0.toks[c]], outs[c])
    ensures |b0.toks| == |b0.tables| && Sound(bs, st0, b0.tables, b0.positions, from, rest) ==>
      && |b0.positions| == |b0.tables| && r.Some?
      && InferEach(bs, AsModel(net), st0, b0.tables, b0.positions, b0.toks, |b0.tables|)
           == Some(Fed(r.value.0, r.value.1, r.value.2))
    ensures |b0.toks| == |b0.tables| == |b0.positions| && Tidies(bs, b0.tables, b0.positions) ==>
      && (r.Some? <==> Drawn(bs, st0.pool, b0.tables, b0.positions, |b0.tables|).blocks <= |st0.pool.free|)
      && InferEach(bs, AsModel(net), st0, b0.tables, b0.positions, b0.toks, |b0.tables|) ==
           if r.Some? then Some(Fed(r.value.0, r.value.1, r.value.2)) else None
  {
    ghost var fits := Sound(bs, st0, b0.tables, b0.positions, from, rest);
    if fits {
      SoundSize(bs, st0, b0.tables, b0.positions, from, rest);
    }
    if |b0.tables| != |b0.toks| || |b0.positions| != |b0.toks| {
      return None;
    }
    BatchStarts(bs, net, st0, b0, views, rest);
    ViewsThere(bs, net, st0, b0, views);
    hide *;
    if fits {
      NoTurns(bs, st0, b0, from, rest);
    }
    ghost var tidy := Tidies(bs, b0.tables, b0.positions);
    if tidy {
      SharedThere(bs, st0, b0, views, rest);
      SharedStarts(bs, st0, b0, rest);
      DrawnExactly(bs, st0, b0.tables, b0.positions, rest, |b0.tables|);
    }
    ghost var cur;
    var done;
    done, cur := AllLayersOf(bs, net, st0, b0, EmbedAll(net, b0.toks), views, rest, from, fits, tidy);
    if done.None? {
      if tidy {
        NotReadyIs(bs, st0, b0);
        NobodyFed(bs, AsModel(net), st0, b0, views, rest);
      }
      return None;
    }
    var st, b, x := done.value.0, done.value.1, done.value.2;
    BatchEnds(bs, net, st0, st, b, views, rest, x);
    SolosPlain(bs, net, st0, b0, views, st, b.tables, Heads(net, x));
    if fits {
      AsIfAlone(bs, net, st0, b0, views, from, rest, st, b, cur, net.layers, Heads(net, x));
    }
    if tidy {
      AsIfAloneShared(bs, net, st0, b0, views, rest, st, b, cur, net.layers, Heads(net, x));
    }
    r := Some((st, b.tables, Heads(net, x)));
  }

  /** A tidy batch, before its first layer. */
  lemma SharedThere(bs: nat, st0: Store, b0: Batch, views: seq<seq<Column>>, rest: multiset<nat>)
    requires |views| == |b0.tables| == |b0.positions| && Shaped(bs, st0) && FreeListOk(st0.pool)
    requires Counts(st0.pool, All(b0.tables) + rest) && Tidies(bs, b0.tables, b0.positions)
    requires forall c :: 0 <= c < |views| ==>
      && InRange(st0, b0.tables[c]) && b0.positions[c] == |views[c]| <= |b0.tables[c]| * bs
      && Gather(bs, st0, b0.tables[c], |views[c]|) == views[c]
    ensures Prior(bs, st0, b0.tables, b0.positions, rest, 0) && Within(bs, b0.tables, b0.positions)
    ensures Reading(bs, Each(st0, b0.tables), b0.tables, b0.positions, views, rest, 0)
  {
    hide FreeListOk, Counts, InRange, Gather, Shaped, Tidy, All;
    forall c | 0 <= c < |views|
      ensures Reads(bs, st0, b0.tables[c], b0.positions[c], views[c])
    {
    }
  }

  /** A batch that cannot be made ready: the sequences fed alone fail, too. */
  lemma NobodyFed(bs: nat, m: Model, st0: Store, b0: Batch, views: seq<seq<Column>>, rest: multiset<nat>)
    requires |views| == |b0.tables| == |b0.positions| == |b0.toks| && Tidies(bs, b0.tables, b0.positions)
    requires Prior(bs, st0, b0.tables, b0.positions, rest, 0)
    requires Reading(bs, Each(st0, b0.tables), b0.tables, b0.positions, views, rest, 0)
    requires ReadyEach(bs, st0, b0.tables, b0.positions, |b0.tables|) == None
    ensures InferEach(bs, m, st0, b0.tables, b0.positions, b0.toks, |b0.tables|) == None
  {
    var n := |views|;
    var cols := seq(n, c requires 0 <= c < n => m.col(views[c], b0.toks[c]));
    hide Tidies, Prior, Reading, ReadyEach, WriteEach, InferEach;
    EachIsReady(bs, st0, b0.tables, b0.positions, rest, cols, n);
    InferEachIs(bs, m, st0, b0.tables, b0.positions, b0.toks, views, cols, n, rest);
  }

  /** Layer after layer, for all sequences. */
  method AllLayersOf<X>(bs: nat, net: Net<X>, st0: Store, b0: Batch, x0: seq<X>, ghost views: seq<seq<Column>>,
                        ghost rest: multiset<nat>, ghost from: seq<nat>, ghost fits: bool, ghost tidy: bool)
    returns (r: Option<(Store, Batch, seq<X>)>, ghost cur: seq<Column>)
    requires bs > 0 && Level(bs, net, st0, st0, b0, views, rest, 0, x0)
    requires fits ==> Turned(bs, st0, b0, st0, b0, [], from, rest, 0, 0)
    requires tidy ==> TurnedShared(bs, st0, b0, st0, b0, [], rest, 0, 0)
    ensures r.Some? ==> Level(bs, net, st0, r.value.0, r.value.1, views, rest, net.layers, r.value.2)
    ensures r.Some? ==> r.value.1.toks == b0.toks && r.value.1.positions == b0.positions
    ensures fits ==> r.Some? && Turned(bs, st0, b0, r.value.0, r.value.1, cur, from, rest, net.layers, 0)
    ensures tidy && r.Some? ==> TurnedShared(bs, st0, b0, r.value.0, r.value.1, cur, rest, net.layers, 0)
    ensures tidy && r.None? ==> NotReady(bs, st0, b0)
  {
    hide *;
    cur := [];
    var st, b, x, l := st0, b0, x0, 0;
    while l < net.layers
      invariant l <= net.layers && Level(bs, net, st0, st, b, views, rest, l, x)
      invariant b.toks == b0.toks && b.positions == b0.positions
      invariant fits ==> Turned(bs, st0, b0, st, b, cur, from, rest, l, 0)
      invariant tidy ==> TurnedShared(bs, st0, b0, st, b, cur, rest, l, 0)
    {
      var next;
      next, cur := OneLayer(bs, net, st, b, l, x, st0, b0, views, rest, from, cur, fits, tidy);
      if next.None? {
        return None, cur;
      }
      st, b, x := next.value.0, next.value.1, next.value.2;
      l := l + 1;
    }
    r := Some((st, b, x));
  }

  function Heads<X>(net: Net<X>, x: seq<X>): (outs: seq<Token>)
    ensures |outs| == |x|
  {
    seq(|x|, c requires 0 <= c < |x| => net.head(x[c]))
  }

  lemma BatchStarts<X>(bs: nat, net: Net<X>, st0: Store, b: Batch, views: seq<seq<Column>>, rest: multiset<nat>)
    requires Matching(b, views) && Shaped(bs, st0) && FreeListOk(st0.pool) && StoreLayered(st0, net.layers)
    requires Counts(st0.pool, All(b.tables) + rest) && Kept(st0, st0, rest)
    requires forall c :: 0 <= c < |views| ==> Progressed(bs, net, st0, b.tables[c], views[c], [b.toks[c]], 0)
    ensures Level(bs, net, st0, st0, b, views, rest, 0, EmbedAll(net, b.toks))
  {
    hide Counts, Kept, Shaped, StoreLayered, FreeListOk;
    forall c | 0 <= c < |views|
      ensures SeqAt(bs, net, st0, b, views, c, 0, 0, EmbedAll(net, b.toks)[c])
    {
      EmbedIsRight(net, views[c], [b.toks[c]]);
      assert seq(1, i requires 0 <= i < 1 => net.embed([b.toks[c]][i])) == [net.embed(b.toks[c])];
    }
  }

  lemma BatchEnds<X>(bs: nat, net: Net<X>, st0: Store, st: Store, b: Batch, views: seq<seq<Column>>,
                     rest: multiset<nat>, x: seq<X>)
    requires net.layers > 0 && Level(bs, net, st0, st, b, views, rest, net.layers, x)
    ensures |b.tables| == |x| == |views| == |b.toks| && Counts(st.pool, All(b.tables) + rest) && Kept(st0, st, rest)
    ensures Shaped(bs, st) && FreeListOk(st.pool) && StoreLayered(st, net.layers)
    ensures forall c :: 0 <= c < |views| ==> Solo(bs, net, st, b.tables[c], views[c], b.toks[c], Heads(net, x)[c])
  {
    hide Progressed, RightRows, Counts, Kept, Shaped, StoreLayered, FreeListOk, Solo;
    forall c | 0 <= c < |views|
      ensures Solo(bs, net, st, b.tables[c], views[c], b.toks[c], Heads(net, x)[c])
    {
      SeqEnds(bs, net, st, b, views, c, x[c]);
    }
  }
}
