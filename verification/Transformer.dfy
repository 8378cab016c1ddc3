/** The two entry points of the model: one sequence's chunk, and one token for each sequence of a batch. */
module Transformer {
  import opened Numbers
  import opened Options
  import opened Blocks
  import opened Paging
  import opened Decoding
  import opened Serving
  import opened PagedForward
  import opened PlainForward
  import opened PrivateWrites
  import opened SharedWrites

  function EmbedAll<X>(net: Net<X>, toks: seq<Token>): seq<X> {
    seq(|toks|, i requires 0 <= i < |toks| => net.embed(toks[i]))
  }

  // ---- prefill

  /** The state of a prefill when l layers are done. */
  ghost predicate Prefilling<X>(bs: nat, net: Net<X>, st0: Store, st: Store, table: seq<nat>, view: seq<Column>,
                                toks: seq<Token>, others: multiset<nat>, l: nat, x: seq<X>) {
    && Progressed(bs, net, st, table, view, toks, l) && FreeListOk(st.pool)
    && Counts(st.pool, multiset(table) + others)
    && (l > 0 ==> Kept(st0, st, others)) && (l == 0 ==> st == st0)
    && RightRows(net, view, toks, l, x)
  }

  /** What a forward pass promises: the sequence's view grew by its own columns, nobody else's blocks changed. */
  ghost predicate Ran<X>(bs: nat, net: Net<X>, st0: Store, st: Store, table: seq<nat>, view: seq<Column>,
                         toks: seq<Token>, others: multiset<nat>, tok: Token) {
    && Shaped(bs, st) && InRange(st, table) && |view| + |toks| <= |table| * bs
    && FreeListOk(st.pool) && StoreLayered(st, net.layers)
    && Gather(bs, st, table, |view| + |toks|) == Cols(net, view, toks)
    && Counts(st.pool, multiset(table) + others) && Kept(st0, st, others)
    && toks != [] && |Cols(net, view, toks)| == |view| + |toks|
    && tok == AsModel(net).pick(Cols(net, view, toks)[..|view| + |toks| - 1], toks[|toks| - 1])
  }

  lemma LayerDone<X>(bs: nat, net: Net<X>, st0: Store, st: Store, table: seq<nat>, view: seq<Column>, toks: seq<Token>,
                     others: multiset<nat>, l: nat, x: seq<X>, stale: seq<Column>, w: Written)
    requires bs > 0 && l < net.layers && toks != []
    requires Prefilling(bs, net, st0, st, table, view, toks, others, l, x)
    requires |stale| == |x| && Layered(stale, net.layers)
    requires |view| <= |table| * bs && Shaped(bs, st) && FreeListOk(st.pool) && InRange(st, table)
    requires w == Write(bs, st, table, |view|, Patch(stale, l, CellsOf(net, x, |view|, l))) && w.Written?
    requires StoreLayered(w.store, net.layers)
    requires |view| + |toks| <= |table| * bs ==> stale == Gather(bs, st, table, |view| + |toks|)[|view|..]
    ensures Shaped(bs, w.store) && InRange(w.store, w.table) && |view| + |toks| <= |w.table| * bs
    ensures |x| == |toks| && Layered(Gather(bs, w.store, w.table, |view| + |toks|), net.layers)
    ensures Prefilling(bs, net, st0, w.store, w.table, view, toks, others, l + 1,
                       MixRows(net, x, |view|, l, LayerOf(Gather(bs, w.store, w.table, |view| + |toks|), l)))
  {
    hide Cols, RowAt, Gather, Counts, FreeListOk, Write, Kept, Shaped, InRange, StoreLayered, FirstLayers, RightRows,
      RightCells, CellsOf, MixRows, Patch;
    assert Layered(view, net.layers);
    RightSize(net, view, toks, l, x);
    RowsGiveCells(net, view, toks, l, x);
    RowsMixRight(net, view, toks, l, x);
    LayerWritten(bs, net, st, table, view, toks, l, CellsOf(net, x, |view|, l), stale, w, others);
    CountsFreeList(w.store.pool, multiset(w.table) + others);
    if l > 0 {
      KeptTrans(st0, st, w.store, others);
    }
  }

  lemma RightSize<X>(net: Net<X>, view: seq<Column>, toks: seq<Token>, l: nat, x: seq<X>)
    requires Layered(view, net.layers) && RightRows(net, view, toks, l, x)
    ensures |x| == |toks|
  {
  }

  lemma PrefillEnds<X>(bs: nat, net: Net<X>, st0: Store, st: Store, table: seq<nat>, view: seq<Column>,
                       toks: seq<Token>, others: multiset<nat>, x: seq<X>)
    requires net.layers > 0 && toks != [] && Prefilling(bs, net, st0, st, table, view, toks, others, net.layers, x)
    ensures |x| == |toks|
    ensures Ran(bs, net, st0, st, table, view, toks, others, net.head(x[|x| - 1]))
  {
    var n, cols := |view| + |toks|, Cols(net, view, toks);
    assert Layered(view, net.layers);
    RightSize(net, view, toks, net.layers, x);
    ColsAt(net, view, toks, 0);
    LastRow(net, view, toks, x);
    hide Cols, RowAt, Gather, Counts, FreeListOk, Kept, Shaped, InRange, StoreLayered, RightRows, FirstLayers, AsModel;
    LayeredView(bs, st, table, n, net.layers);
    GatherPrefix(bs, st, table, |view|, n);
    AllLayers(net, Gather(bs, st, table, n), view, toks);
  }

  /** What such a pass leaves is the plain network's. */
  lemma RanPlain<X>(bs: nat, net: Net<X>, st0: Store, st: Store, table: seq<nat>, view: seq<Column>, toks: seq<Token>,
                    others: multiset<nat>, tok: Token)
    requires Ran(bs, net, st0, st, table, view, toks, others, tok) && Layered(view, net.layers)
    ensures LeftPlain(bs, net, st, table, view, toks, tok)
  {
    hide Cols, Gather, Counts, FreeListOk, Kept, Shaped, InRange, StoreLayered, AsModel, Computed;
    PassIsPlain(net, view, toks);
  }

  lemma LastRow<X>(net: Net<X>, view: seq<Column>, toks: seq<Token>, x: seq<X>)
    requires Layered(view, net.layers) && toks != [] && RightRows(net, view, toks, net.layers, x) && |x| == |toks|
    ensures |Cols(net, view, toks)| == |view| + |toks|
    ensures net.head(x[|x| - 1]) == AsModel(net).pick(Cols(net, view, toks)[..|view| + |toks| - 1], toks[|toks| - 1])
  {
    ColsAt(net, view, toks, 0);
    hide RowAt, Cols;
  }

  lemma PrefillStarts<X>(bs: nat, net: Net<X>, st: Store, table: seq<nat>, view: seq<Column>, toks: seq<Token>,
                         others: multiset<nat>)
    requires Progressed(bs, net, st, table, view, toks, 0) && FreeListOk(st.pool)
    requires Counts(st.pool, multiset(table) + others)
    ensures Prefilling(bs, net, st, st, table, view, toks, others, 0, EmbedAll(net, toks))
  {
    EmbedIsRight(net, view, toks);
    hide Cols, RowAt, Gather, Counts, FreeListOk, Shaped, InRange, StoreLayered;
  }

  lemma PrefillingParts<X>(bs: nat, net: Net<X>, st0: Store, st: Store, table: seq<nat>, view: seq<Column>,
                           toks: seq<Token>, others: multiset<nat>, l: nat, x: seq<X>)
    requires Prefilling(bs, net, st0, st, table, view, toks, others, l, x)
    ensures Shaped(bs, st) && InRange(st, table) && StoreLayered(st, net.layers) && FreeListOk(st.pool)
    ensures |view| <= |table| * bs && |x| == |toks| && Counts(st.pool, multiset(table) + others)
  {
    assert Layered(view, net.layers);
    RightSize(net, view, toks, l, x);
    hide Cols, RowAt, Gather, Counts, FreeListOk, Shaped, InRange, StoreLayered, RightRows, FirstLayers, Kept;
  }

  // ---- exclusive blocks

  /** One write took the sequence from one store and table to another. */
  ghost predicate Wrote(bs: nat, st: Store, table: seq<nat>, start: nat, cols: seq<Column>, st': Store,
                        table': seq<nat>) {
    && Shaped(bs, st) && FreeListOk(st.pool) && InRange(st, table)
    && Write(bs, st, table, start, cols) == Written(st', table')
  }

  lemma PatchSize(stale: seq<Column>, l: nat, cells: seq<Cell>, layers: nat)
    requires |stale| == |cells| && Layered(stale, layers) && l < layers
    ensures forall i :: 0 <= i < |stale| ==> l < |stale[i]|
    ensures |Patch(stale, l, cells)| == |cells|
  {
  }

  lemma ExclusiveFits(bs: nat, st: Store, table: seq<nat>, start: nat, total: nat, from: nat)
    requires Exclusive(bs, st, table, start, total, from)
    ensures bs > 0 && BlocksNeeded(bs, table, total) <= |st.pool.free|
  {
  }

  /** A write into exclusive blocks succeeds, and leaves them exclusive. */
  lemma ExclusiveWrite(bs: nat, st: Store, table: seq<nat>, start: nat, cols: seq<Column>, from: nat,
                       held: multiset<nat>)
    requires Shaped(bs, st) && FreeListOk(st.pool) && InRange(st, table) && Counts(st.pool, held)
    requires cols != [] && Exclusive(bs, st, table, start, start + |cols|, from)
    ensures var w := Write(bs, st, table, start, cols);
      w.Written? && Exclusive(bs, w.store, w.table, start, start + |cols|, from)
  {
    var w, n := Write(bs, st, table, start, cols), start + |cols|;
    WritePuts(bs, st, table, start, cols, from, held);
    CeilDivFits(n, bs, |w.table|);
    hide Write, PutAll, Counts, FreeListOk, Shaped, InRange, PrivateFrom, AllocateMany, NextBlocks;
  }

  lemma SolidParts<X>(bs: nat, net: Net<X>, st0: Store, st: Store, table: seq<nat>, view: seq<Column>, toks: seq<Token>,
                      others: multiset<nat>, l: nat, x: seq<X>)
    requires Prefilling(bs, net, st0, st, table, view, toks, others, l, x)
    ensures Layered(view, net.layers) && Gather(bs, st, table, |view|) == view
    ensures Shaped(bs, st) && InRange(st, table) && |view| <= |table| * bs
  {
    hide Cols, RowAt, Counts, FreeListOk, StoreLayered, RightRows, FirstLayers, Kept;
  }

  /** Every layer's write so far amounts to the last one. */
  lemma LastWriteCounts(bs: nat, st0: Store, table0: seq<nat>, start: nat, from: nat, held: multiset<nat>,
                        others: multiset<nat>, st: Store, table: seq<nat>, last: seq<Column>, st': Store,
                        table': seq<nat>, wrote: seq<Column>, first: bool)
    requires Shaped(bs, st0) && FreeListOk(st0.pool) && InRange(st0, table0) && Counts(st0.pool, held) && wrote != []
    requires Exclusive(bs, st0, table0, start, start + |wrote|, from)
    requires if first then st == st0 && table == table0
             else |last| == |wrote| && Wrote(bs, st0, table0, start, last, st, table)
    requires Wrote(bs, st, table, start, wrote, st', table') && Counts(st.pool, multiset(table) + others)
    ensures Wrote(bs, st0, table0, start, wrote, st', table')
  {
    hide Write, Counts, FreeListOk, Shaped, InRange, Exclusive;
    if !first {
      Overwrite(bs, st0, table0, start, last, wrote, from, held, others);
    }
  }

  /** The columns written are the reference's, so the pass is the reference's pass. */
  lemma PassIsInfer<X>(bs: nat, net: Net<X>, st0: Store, table0: seq<nat>, view: seq<Column>, toks: seq<Token>,
                       others: multiset<nat>, last: seq<Column>, st: Store, table: seq<nat>, tok: Token)
    requires Shaped(bs, st0) && FreeListOk(st0.pool) && InRange(st0, table0) && |view| <= |table0| * bs
    requires Gather(bs, st0, table0, |view|) == view && Counts(st0.pool, multiset(table0) + others)
    requires toks != [] && |last| == |toks| && Wrote(bs, st0, table0, |view|, last, st, table)
    requires Ran(bs, net, st0, st, table, view, toks, others, tok)
    ensures Infer(bs, AsModel(net), st0, table0, |view|, toks) == Some(Pass(st, table, tok))
    ensures |Cols(net, view, toks)| == |view| + |toks|
    ensures Wrote(bs, st0, table0, |view|, Cols(net, view, toks)[|view|..], st, table)
  {
    hide Write, Counts, FreeListOk, Shaped, InRange, Gather, Extend, AsModel, Kept, StoreLayered, Infer;
    WriteIsolated(bs, st0, table0, |view|, last, others);
    assert view + last == Cols(net, view, toks);
    assert (view + last)[|view|..] == last;
    ReadsWritten(bs, AsModel(net), st0, table0, |view|, toks);
  }

  lemma WrittenHadRoom(bs: nat, st: Store, table: seq<nat>, total: nat, w: Written)
    requires bs > 0 && w.Written? && (BlocksNeeded(bs, table, total) > |st.pool.free| ==> w.OutOfBlocks?)
    ensures BlocksNeeded(bs, table, total) <= |st.pool.free|
  {
  }

  lemma LayeredAt(view: seq<Column>, layers: nat, l: nat)
    requires Layered(view, layers) && l < layers
    ensures forall p :: 0 <= p < |view| ==> l < |view[p]|
  {
  }

  lemma CellsSize<X>(net: Net<X>, x: seq<X>, start: nat, l: nat)
    ensures |CellsOf(net, x, start, l)| == |x|
  {
  }

  /**
   One layer of a prefill: write its cells, gather the sequence back, mix. `wrote` is what the write
   leaves at its positions.
   */
  method PrefillLayer<X>(bs: nat, net: Net<X>, st: Store, table: seq<nat>, start: nat, l: nat, x: seq<X>,
                         ghost st0: Store, ghost view: seq<Column>, ghost toks: seq<Token>,
                         ghost others: multiset<nat>, ghost from: nat)
    returns (r: Option<(Store, seq<nat>, seq<X>)>, ghost wrote: seq<Column>)
    requires bs > 0 && l < net.layers && start == |view| && toks != []
    requires Prefilling(bs, net, st0, st, table, view, toks, others, l, x)
    ensures r.Some? ==> Prefilling(bs, net, st0, r.value.0, r.value.1, view, toks, others, l + 1, r.value.2)
    ensures r.Some? ==> |wrote| == |toks| && Wrote(bs, st, table, start, wrote, r.value.0, r.value.1)
    ensures Exclusive(bs, st, table, start, start + |toks|, from) ==>
      r.Some? && Exclusive(bs, r.value.0, r.value.1, start, start + |toks|, from)
    ensures Tidy(bs, table, start + |toks|) ==> (r.Some? <==> CanAfford(bs, st, table, start, start + |toks|))
  {
    hide *;
    PrefillingParts(bs, net, st0, st, table, view, toks, others, l, x);
    IsReady(bs, st, table, others);
    AffordIs(bs, st, table, start, start + |toks|);
    var cells := CellsOf(net, x, start, l);
    CellsSize(net, x, start, l);
    var w, stale := WriteLayer(bs, st, table, start, l, cells, net.layers);
    wrote := [];
    ghost var fits := Exclusive(bs, st, table, start, start + |toks|, from);
    if fits {
      ExclusiveFits(bs, st, table, start, start + |toks|, from);
      PatchSize(stale, l, cells, net.layers);
      ExclusiveWrite(bs, st, table, start, Patch(stale, l, cells), from, multiset(table) + others);
    }
    if Tidy(bs, table, start + |toks|) && BlocksNeeded(bs, table, start + |toks|) <= |st.pool.free| {
      PatchSize(stale, l, cells, net.layers);
      WriteExactly(bs, st, table, start, Patch(stale, l, cells), others);
    }
    if w.OutOfBlocks? {
      return None, wrote;
    }
    WrittenHadRoom(bs, st, table, start + |cells|, w);
    PatchSize(stale, l, cells, net.layers);
    wrote := Patch(stale, l, cells);
    WroteIs(bs, st, table, start, wrote, w);
    LayerDone(bs, net, st0, st, table, view, toks, others, l, x, stale, w);
    var all := GatherAll(bs, w.store, w.table, start + |x|, l, net.layers);
    r := Some((w.store, w.table, MixRows(net, x, start, l, all)));
  }

  /** The blocks to add and the blocks to copy are free. */
  ghost predicate CanAfford(bs: nat, st: Store, table: seq<nat>, start: nat, total: nat) {
    bs > 0 && InPool(st.pool, table) && Cost(bs, st.pool, table, start, total) <= |st.pool.free|
  }

  lemma AffordIs(bs: nat, st: Store, table: seq<nat>, start: nat, total: nat)
    requires Shaped(bs, st) && InRange(st, table)
    ensures bs > 0 && InPool(st.pool, table)
    ensures CanAfford(bs, st, table, start, total) <==> Cost(bs, st.pool, table, start, total) <= |st.pool.free|
    ensures CanAfford(bs, st, table, start, total) ==> BlocksNeeded(bs, table, total) <= |st.pool.free|
  {
    hide Copies, BlocksNeeded;
  }

  lemma IsReady(bs: nat, st: Store, table: seq<nat>, others: multiset<nat>)
    requires Shaped(bs, st) && FreeListOk(st.pool) && InRange(st, table) && Counts(st.pool, multiset(table) + others)
    ensures Ready(bs, st, table, others)
  {
    hide Shaped, FreeListOk, InRange, Counts;
  }

  /** The first write, seen from the state in which its blocks have been made private. */
  lemma WroteReadied(bs: nat, st0: Store, table0: seq<nat>, start: nat, cols: seq<Column>, others: multiset<nat>,
                     st: Store, table: seq<nat>)
    requires Ready(bs, st0, table0, others) && bs > 0 && FreeListOk(st0.pool) && cols != []
    requires Tidy(bs, table0, start + |cols|) && Readied(bs, st0, table0, start, start + |cols|).Written?
    ensures var w := Readied(bs, st0, table0, start, start + |cols|);
      && Private(bs, w.store, w.table, start, start + |cols|, others)
      && (Wrote(bs, st0, table0, start, cols, st, table) <==> Wrote(bs, w.store, w.table, start, cols, st, table))
  {
    ReadyParts(bs, st0, table0, others);
    hide Shaped, FreeListOk, InRange, Counts, Write, Readied, Ready, Private, Tidy;
    WriteReadied(bs, st0, table0, start, cols, others);
    ReadiedIs(bs, st0, table0, start, start + |cols|, others);
  }

  lemma WroteAffordable(bs: nat, st0: Store, table0: seq<nat>, start: nat, cols: seq<Column>, others: multiset<nat>,
                        st: Store, table: seq<nat>)
    requires Ready(bs, st0, table0, others) && bs > 0 && FreeListOk(st0.pool) && cols != []
    requires Tidy(bs, table0, start + |cols|) && Wrote(bs, st0, table0, start, cols, st, table)
    ensures Readied(bs, st0, table0, start, start + |cols|).Written?
  {
    hide Shaped, FreeListOk, InRange, Counts, Write, Readied, Ready, Tidy;
    WriteReadied(bs, st0, table0, start, cols, others);
  }

  /** Writing the same positions again amounts to one write, shared blocks or not. */
  lemma AnotherWrite(bs: nat, st0: Store, table0: seq<nat>, start: nat, others: multiset<nat>, first: seq<Column>,
                     st: Store, table: seq<nat>, cols: seq<Column>, st': Store, table': seq<nat>)
    requires Ready(bs, st0, table0, others) && cols != [] && |first| == |cols| && bs > 0
    requires Tidy(bs, table0, start + |cols|) && Wrote(bs, st0, table0, start, first, st, table)
    requires Wrote(bs, st, table, start, cols, st', table') && Counts(st.pool, multiset(table) + others)
    ensures Wrote(bs, st0, table0, start, cols, st', table')
  {
    hide *;
    ReadyParts(bs, st0, table0, others);
    WroteAffordable(bs, st0, table0, start, first, others, st, table);
    WroteReadied(bs, st0, table0, start, first, others, st, table);
    WroteReadied(bs, st0, table0, start, cols, others, st', table');
    var w := Readied(bs, st0, table0, start, start + |cols|);
    PrivateParts(bs, w.store, w.table, start, start + |cols|, others);
    LastWriteCounts(bs, w.store, w.table, start, start / bs, multiset(w.table) + others, others,
                    st, table, first, st', table', cols, false);
  }

  /** After the first write the blocks are the sequence's own. */
  lemma OwnAfter(bs: nat, st0: Store, table0: seq<nat>, start: nat, cols: seq<Column>, others: multiset<nat>,
                 st: Store, table: seq<nat>)
    requires Ready(bs, st0, table0, others) && bs > 0 && FreeListOk(st0.pool) && cols != []
    requires Tidy(bs, table0, start + |cols|) && Wrote(bs, st0, table0, start, cols, st, table)
    ensures Exclusive(bs, st, table, start, start + |cols|, start / bs)
  {
    hide *;
    WroteAffordable(bs, st0, table0, start, cols, others, st, table);
    WroteReadied(bs, st0, table0, start, cols, others, st, table);
    var w := Readied(bs, st0, table0, start, start + |cols|);
    PrivateParts(bs, w.store, w.table, start, start + |cols|, others);
    WroteWritten(bs, w.store, w.table, start, cols, st, table);
    ExclusiveWrite(bs, w.store, w.table, start, cols, start / bs, multiset(w.table) + others);
  }

  lemma WroteWritten(bs: nat, st: Store, table: seq<nat>, start: nat, cols: seq<Column>, st': Store,
                     table': seq<nat>)
    requires Wrote(bs, st, table, start, cols, st', table')
    ensures Shaped(bs, st) && FreeListOk(st.pool) && InRange(st, table)
    ensures Write(bs, st, table, start, cols) == Written(st', table')
  {
    hide Write, Shaped, FreeListOk, InRange;
  }

  /** When the blocks cannot be had, the reference's pass fails, too. */
  lemma InferFails(bs: nat, m: Model, st: Store, table: seq<nat>, start: nat, toks: seq<Token>, others: multiset<nat>)
    requires Ready(bs, st, table, others) && Shaped(bs, st) && FreeListOk(st.pool) && InRange(st, table)
    requires bs > 0 && toks != [] && start <= |table| * bs && Tidy(bs, table, start + |toks|)
    requires !CanAfford(bs, st, table, start, start + |toks|)
    ensures Infer(bs, m, st, table, start, toks) == None
  {
    hide Shaped, FreeListOk, InRange, Counts, Write, Ready, Tidy, CanAfford, Gather, Infer;
    ReadsWritten(bs, m, st, table, start, toks);
    var cols := Extend(m, Gather(bs, st, table, start), toks);
    assert |Gather(bs, st, table, start)| == start by { GatherLength(bs, st, table, start); }
    AffordIs(bs, st, table, start, start + |toks|);
    WriteExactly(bs, st, table, start, cols[start..], others);
  }

  lemma WroteIs(bs: nat, st: Store, table: seq<nat>, start: nat, cols: seq<Column>, w: Written)
    requires Shaped(bs, st) && FreeListOk(st.pool) && InRange(st, table)
    requires w == Write(bs, st, table, start, cols) && w.Written?
    ensures Wrote(bs, st, table, start, cols, w.store, w.table)
  {
    hide Write;
  }

  method GatherAll(bs: nat, st: Store, table: seq<nat>, n: nat, l: nat, ghost layers: nat) returns (all: seq<Cell>)
    requires Shaped(bs, st) && InRange(st, table) && n <= |table| * bs && l < layers
    requires Layered(Gather(bs, st, table, n), layers)
    ensures (forall p :: 0 <= p < n ==> l < |Gather(bs, st, table, n)[p]|)
      && all == LayerOf(Gather(bs, st, table, n), l) && |all| == n
  {
    hide Gather, Shaped, InRange;
    GatherLength(bs, st, table, n);
    LayeredAt(Gather(bs, st, table, n), layers, l);
    all := GatherLayer(bs, st, table, n, l);
  }

  /**
   Run a chunk of one sequence's tokens, layer by layer. None stands for an exception:
   it comes exactly when the blocks to add and the shared blocks to copy are not free.
   All the layers together leave the very store, table and token of one token-by-token
   pass; blocks of one's own, of which enough are free, stay one's own.
   */
  method ForwardPrefill<X>(bs: nat, net: Net<X>, st0: Store, table0: seq<nat>, start: nat, toks: seq<Token>,
                           ghost view: seq<Column>, ghost others: multiset<nat>, ghost from: nat)
    returns (r: Option<(Store, seq<nat>, Token)>)
    requires bs > 0 && net.layers > 0 && start == |view|
    requires Progressed(bs, net, st0, table0, view, toks, 0)
    requires FreeListOk(st0.pool) && Counts(st0.pool, multiset(table0) + others)
    ensures toks == [] ==> r.None?
    ensures r.Some? ==> Ran(bs, net, st0, r.value.0, r.value.1, view, toks, others, r.value.2)
    ensures r.Some? ==> LeftPlain(bs, net, r.value.0, r.value.1, view, toks, r.value.2)
    ensures toks != [] && Exclusive(bs, st0, table0, start, start + |toks|, from) ==>
      && r.Some? && Exclusive(bs, r.value.0, r.value.1, start, start + |toks|, from)
      && Infer(bs, AsModel(net), st0, table0, start, toks) == Some(Pass(r.value.0, r.value.1, r.value.2))
      && |Cols(net, view, toks)| == start + |toks|
        && Wrote(bs, st0, table0, start, Cols(net, view, toks)[start..], r.value.0, r.value.1)
    ensures toks != [] && Tidy(bs, table0, start + |toks|) ==>
      && (r.Some? <==> CanAfford(bs, st0, table0, start, start + |toks|))
      && Infer(bs, AsModel(net), st0, table0, start, toks) ==
           if r.Some? then Some(Pass(r.value.0, r.value.1, r.value.2)) else None
  {
    hide *;
    if toks == [] {
      return None;
    }
    var st, table, x := st0, table0, EmbedAll(net, toks);
    PrefillStarts(bs, net, st0, table0, view, toks, others);
    SolidParts(bs, net, st0, st0, table0, view, toks, others, 0, x);
    PrefillingParts(bs, net, st0, st0, table0, view, toks, others, 0, x);
    IsReady(bs, st0, table0, others);
    ghost var fits, last: seq<Column> := Exclusive(bs, st0, table0, start, start + |toks|, from), [];
    ghost var tidy := Tidy(bs, table0, start + |toks|);
    var l := 0;
    while l < net.layers
      invariant l <= net.layers && Prefilling(bs, net, st0, st, table, view, toks, others, l, x)
      invariant fits ==> Exclusive(bs, st, table, start, start + |toks|, from)
      invariant fits || tidy ==> if l == 0 then st == st0 && table == table0
                                 else |last| == |toks| && Wrote(bs, st0, table0, start, last, st, table)
      invariant tidy && l > 0 ==> Exclusive(bs, st, table, start, start + |toks|, start / bs)
      invariant tidy && l > 0 ==> CanAfford(bs, st0, table0, start, start + |toks|)
    {
      PrefillingParts(bs, net, st0, st, table, view, toks, others, l, x);
      ghost var wrote;
      var next;
      next, wrote := PrefillLayer(bs, net, st, table, start, l, x, st0, view, toks, others,
        if tidy && l > 0 && !fits then start / bs else from);
      if next.None? {
        if tidy {
          InferFails(bs, AsModel(net), st0, table0, start, toks, others);
        }
        return None;
      }
      if tidy {
        if l > 0 {
          AnotherWrite(bs, st0, table0, start, others, last, st, table, wrote, next.value.0, next.value.1);
        }
        OwnAfter(bs, st0, table0, start, wrote, others, next.value.0, next.value.1);
      }
      if fits {
        LastWriteCounts(bs, st0, table0, start, from, multiset(table0) + others, others,
                        st, table, last, next.value.0, next.value.1, wrote, l == 0);
      }
      st, table, x, last := next.value.0, next.value.1, next.value.2, wrote;
      l := l + 1;
    }
    PrefillEnds(bs, net, st0, st, table, view, toks, others, x);
    RanPlain(bs, net, st0, st, table, view, toks, others, net.head(x[|x| - 1]));
    if fits || tidy {
      PassIsInfer(bs, net, st0, table0, view, toks, others, last, st, table, net.head(x[|x| - 1]));
    }
    r := Some((st, table, net.head(x[|x| - 1])));
  }
}
