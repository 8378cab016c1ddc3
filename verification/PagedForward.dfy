/**
 The transformer's layer loops over the paged KV cache against token-by-token
 decoding. The per-row functions are opaque; what is modelled is the order of
 work: layer by layer, each layer writing its cells for all rows and gathering
 them back before the next.
 */
module PagedForward {
  import opened Numbers
  import opened Blocks
  import opened Paging
  import opened Decoding
  import opened Serving

  /**
   embed and head are the ends of the network; at layer l and position pos a row
   yields its K/V cell, and mixes with the cells of all positions up to its own.
   */
  datatype Net<!X> = Net(
    layers: nat,
    embed: Token -> X,
    cell: (nat, X, nat) -> Cell,
    mix: (nat, X, nat, seq<Cell>) -> X,
    head: X -> Token,
    blank: Column)      // what an unwritten position holds

  predicate Layered(view: seq<Column>, layers: nat) {
    forall p :: 0 <= p < |view| ==> |view[p]| == layers
  }

  ghost predicate StoreLayered(st: Store, layers: nat) {
    forall b, k :: 0 <= b < |st.mem| && 0 <= k < |st.mem[b]| ==> |st.mem[b][k]| == layers
  }

  /** One layer's cells of a view. */
  function LayerOf(view: seq<Column>, l: nat): (cells: seq<Cell>)
    requires forall p :: 0 <= p < |view| ==> l < |view[p]|
    ensures |cells| == |view|
  {
    seq(|view|, p requires 0 <= p < |view| => view[p][l])
  }

  // ---- one token at a time

  /** The hidden state of a token, after l layers, behind the given columns. */
  function RowAt<X>(net: Net<X>, prev: seq<Column>, tok: Token, l: nat): X
    requires Layered(prev, net.layers) && l <= net.layers
  {
    if l == 0 then net.embed(tok)
    else
      var x := RowAt(net, prev, tok, l - 1);
      net.mix(l - 1, x, |prev|, LayerOf(prev, l - 1) + [net.cell(l - 1, x, |prev|)])
  }

  function TokenColumn<X>(net: Net<X>, prev: seq<Column>, tok: Token): (col: Column)
    requires Layered(prev, net.layers)
    ensures |col| == net.layers
  {
    seq(net.layers, l requires 0 <= l < net.layers => net.cell(l, RowAt(net, prev, tok, l), |prev|))
  }

  /** The network as the reference model of plain decoding. */
  function AsModel<X>(net: Net<X>): Model {
    Model((prev, tok) => if Layered(prev, net.layers) then TokenColumn(net, prev, tok) else net.blank,
          (prev, tok) => if Layered(prev, net.layers) then net.head(RowAt(net, prev, tok, net.layers)) else 0,
          net.blank)
  }

  /** The columns of toks behind view. */
  function Cols<X>(net: Net<X>, view: seq<Column>, toks: seq<Token>): seq<Column> {
    Extend(AsModel(net), view, toks)
  }

  lemma {:induction false} ColsAt<X>(net: Net<X>, view: seq<Column>, toks: seq<Token>, i: nat)
    requires Layered(view, net.layers) && i <= |toks|
    ensures var cols := Cols(net, view, toks);
      && |cols| == |view| + |toks| && cols[..|view|] == view && Layered(cols, net.layers)
      && (i < |toks| ==> cols[|view| + i] == TokenColumn(net, cols[..|view| + i], toks[i]))
    decreases |toks|
  {
    hide TokenColumn;
    var cols := Cols(net, view, toks);
    if toks != [] {
      var col := TokenColumn(net, view, toks[0]);
      ColSize(net, view, toks[0]);
      var view' := view + [col];
      assert cols == Cols(net, view', toks[1..]);
      ColsAt(net, view', toks[1..], if i > 0 then i - 1 else 0);
      assert cols[..|view|] == cols[..|view'|][..|view|] == view;
      assert cols[|view|] == cols[..|view'|][|view|] == col;
      if i == 0 {
        assert cols[..|view| + 0] == view;
      } else if i < |toks| {
        assert toks[1..][i - 1] == toks[i];
        assert |view'| + (i - 1) == |view| + i;
      }
    } else {
      assert cols[..|view|] == view;
    }
  }

  lemma ColSize<X>(net: Net<X>, view: seq<Column>, tok: Token)
    requires Layered(view, net.layers)
    ensures |TokenColumn(net, view, tok)| == net.layers
  {
  }

  /** Chunked prefill: feeding in two pieces computes what feeding in one does. */
  lemma {:induction false} ColsSplit<X>(net: Net<X>, view: seq<Column>, first: seq<Token>, second: seq<Token>)
    ensures Cols(net, Cols(net, view, first), second) == Cols(net, view, first + second)
    decreases |first|
  {
    if first == [] {
      assert first + second == second;
    } else {
      var m := AsModel(net);
      assert (first + second)[1..] == first[1..] + second;
      ColsSplit(net, view + [m.col(view, first[0])], first[1..], second);
    }
  }

  // ---- one layer's write

  function Patch(stale: seq<Column>, l: nat, cells: seq<Cell>): (cols: seq<Column>)
    requires |stale| == |cells| && forall i :: 0 <= i < |stale| ==> l < |stale[i]|
    ensures |cols| == |stale|
  {
    seq(|stale|, i requires 0 <= i < |stale| => stale[i][l := cells[i]])
  }

  lemma LayeredView(bs: nat, st: Store, table: seq<nat>, n: nat, layers: nat)
    requires Shaped(bs, st) && InRange(st, table) && n <= |table| * bs && StoreLayered(st, layers)
    ensures Layered(Gather(bs, st, table, n), layers)
  {
    var view := Gather(bs, st, table, n);
    forall p | 0 <= p < n
      ensures |view[p]| == layers
    {
      assert view[p] == At(bs, st.mem, table, p);
    }
  }

  lemma {:induction false} WriteFromLayered(bs: nat, st: Store, table: seq<nat>, pos: nat, cols: seq<Column>,
                                            layers: nat)
    requires Shaped(bs, st) && FreeListOk(st.pool) && InRange(st, table) && pos + |cols| <= |table| * bs
    requires StoreLayered(st, layers) && Layered(cols, layers) && WriteFrom(bs, st, table, pos, cols).Written?
    ensures StoreLayered(WriteFrom(bs, st, table, pos, cols).store, layers)
    decreases |cols|
  {
    if cols != [] {
      PageBound(pos, |table|, bs);
      WriteAtShape(bs, st, table, pos, cols[0]);
      SlotLayered(bs, st, table, pos, cols[0], layers);
      hide WriteAt, Shaped, FreeListOk, InRange, StoreLayered;
      WriteFromLayered(bs, WriteAt(bs, st, table, pos, cols[0]).store, WriteAt(bs, st, table, pos, cols[0]).table,
        pos + 1, cols[1..], layers);
    }
  }

  lemma SlotLayered(bs: nat, st: Store, table: seq<nat>, pos: nat, col: Column, layers: nat)
    requires Shaped(bs, st) && FreeListOk(st.pool) && InRange(st, table) && pos / bs < |table|
    requires StoreLayered(st, layers) && |col| == layers && WriteAt(bs, st, table, pos, col).Written?
    ensures StoreLayered(WriteAt(bs, st, table, pos, col).store, layers)
  {
  }

  /** What the store holds at positions start.. once there is room for n more. */
  ghost function Stale(bs: nat, g: Written, start: nat, n: nat): seq<Column>
    requires g.Written? && Shaped(bs, g.store) && InRange(g.store, g.table) && start + n <= |g.table| * bs
  {
    Gather(bs, g.store, g.table, start + n)[start..]
  }

  /** The state of one sequence: its old view, and the cells of its new tokens in the first l layers. */
  ghost predicate Progressed<X>(bs: nat, net: Net<X>, st: Store, table: seq<nat>, view: seq<Column>, toks: seq<Token>,
                                l: nat) {
    && Shaped(bs, st) && InRange(st, table) && StoreLayered(st, net.layers) && Layered(view, net.layers)
    && l <= net.layers && |view| <= |table| * bs
    && Gather(bs, st, table, |view|) == view
    && (l > 0 ==>
         && |view| + |toks| <= |table| * bs
         && FirstLayers(Gather(bs, st, table, |view| + |toks|), Cols(net, view, toks), |view|, l))
  }

  /** From position `from` on, two views agree in the first l layers. */
  ghost predicate FirstLayers(got: seq<Column>, want: seq<Column>, from: nat, l: nat) {
    |got| == |want| && forall p, k :: from <= p < |got| && 0 <= k < l ==>
      k < |got[p]| && k < |want[p]| && got[p][k] == want[p][k]
  }

  /** Writing one layer's cells at the end of a sequence. */
  method WriteLayer(bs: nat, st: Store, table: seq<nat>, start: nat, l: nat, cells: seq<Cell>, ghost layers: nat)
    returns (w: Written, ghost stale: seq<Column>)
    requires Shaped(bs, st) && FreeListOk(st.pool) && InRange(st, table) && start <= |table| * bs
    requires StoreLayered(st, layers) && l < layers && cells != []
    ensures BlocksNeeded(bs, table, start + |cells|) > |st.pool.free| ==> w.OutOfBlocks?
    ensures BlocksNeeded(bs, table, start + |cells|) <= |st.pool.free| ==>
      |stale| == |cells| && Layered(stale, layers) && w == Write(bs, st, table, start, Patch(stale, l, cells))
    ensures w.Written? ==> StoreLayered(w.store, layers)
    ensures w.Written? && start + |cells| <= |table| * bs ==> stale == Gather(bs, st, table, start + |cells|)[start..]
  {
    CapacityIs(bs, st, table, start + |cells|);
    hide Gather, WriteFrom, StoreLayered, FreeListOk, InRange, EnsureCapacity, Patch, BlocksNeeded;
    stale := [];
    var g := EnsureCapacity(bs, st, table, start + |cells|);
    EnsureCapacityShape(bs, st, table, start + |cells|);
    if g.OutOfBlocks? {
      return g, [];
    }
    Roomy(bs, st, table, start + |cells|);
    SameMemLayered(st, g.store, layers);
    stale := Stale(bs, g, start, |cells|);
    StaleLayered(bs, g, start, |cells|, layers);
    var cols := Overwritten(bs, g.store, g.table, start, l, cells, stale);
    w := WriteFrom(bs, g.store, g.table, start, cols);
    WriteIs(bs, st, table, start, cols);
    PatchLayered(stale, l, cells, layers);
    if w.Written? {
      WriteFromLayered(bs, g.store, g.table, start, cols, layers);
    }
  }

  lemma CapacityIs(bs: nat, st: Store, table: seq<nat>, total: nat)
    requires bs > 0 && FreeListOk(st.pool)
    ensures EnsureCapacity(bs, st, table, total).OutOfBlocks? <==> BlocksNeeded(bs, table, total) > |st.pool.free|
  {
  }

  lemma WriteIs(bs: nat, st: Store, table: seq<nat>, start: nat, cols: seq<Column>)
    requires Shaped(bs, st) && FreeListOk(st.pool) && InRange(st, table) && cols != []
    requires EnsureCapacity(bs, st, table, start + |cols|).Written?
    ensures var g := EnsureCapacity(bs, st, table, start + |cols|);
      && Shaped(bs, g.store) && FreeListOk(g.store.pool) && InRange(g.store, g.table)
        && start + |cols| <= |g.table| * bs
      && Write(bs, st, table, start, cols) == WriteFrom(bs, g.store, g.table, start, cols)
  {
    EnsureCapacityShape(bs, st, table, start + |cols|);
    hide WriteFrom, EnsureCapacity, Shaped, FreeListOk, InRange;
  }

  /** With room already there, nothing is allocated. */
  lemma Roomy(bs: nat, st: Store, table: seq<nat>, total: nat)
    requires bs > 0 && FreeListOk(st.pool)
    ensures total <= |table| * bs ==> EnsureCapacity(bs, st, table, total) == Written(st, table)
  {
    CeilDivFits(total, bs, |table|);
    if total <= |table| * bs {
      assert AllocateMany(st.pool, 0) == st.pool;
      assert table + NextBlocks(st.pool, 0) == table;
    }
  }

  lemma SameMemLayered(a: Store, b: Store, layers: nat)
    requires StoreLayered(a, layers) && b.mem == a.mem
    ensures StoreLayered(b, layers)
  {
  }

  lemma StaleLayered(bs: nat, g: Written, start: nat, n: nat, layers: nat)
    requires g.Written? && Shaped(bs, g.store) && InRange(g.store, g.table) && start + n <= |g.table| * bs
    requires StoreLayered(g.store, layers)
    ensures |Stale(bs, g, start, n)| == n && Layered(Stale(bs, g, start, n), layers)
    ensures forall i :: 0 <= i < n ==> |Stale(bs, g, start, n)[i]| == layers
  {
    LayeredView(bs, g.store, g.table, start + n, layers);
    hide Gather, StoreLayered;
  }

  lemma PatchLayered(stale: seq<Column>, l: nat, cells: seq<Cell>, layers: nat)
    requires |stale| == |cells| && Layered(stale, layers) && l < layers
    ensures (forall i :: 0 <= i < |stale| ==> l < |stale[i]|) && Layered(Patch(stale, l, cells), layers)
  {
  }

  lemma StaleAt(bs: nat, st: Store, table: seq<nat>, start: nat, n: nat, i: nat)
    requires Shaped(bs, st) && InRange(st, table) && start + n <= |table| * bs && i < n
    ensures (start + i) / bs < |table|
    ensures Gather(bs, st, table, start + n)[start..][i] == At(bs, st.mem, table, start + i)
  {
    PageBound(start + i, |table|, bs);
    var view := Gather(bs, st, table, start + n);
    assert view[start + i] == At(bs, st.mem, table, start + i);
  }

  /** The columns a layer's write leaves at its positions. */
  method Overwritten(bs: nat, st: Store, table: seq<nat>, start: nat, l: nat, cells: seq<Cell>,
                     ghost stale: seq<Column>)
    returns (cols: seq<Column>)
    requires Shaped(bs, st) && InRange(st, table) && start + |cells| <= |table| * bs
    requires stale == Gather(bs, st, table, start + |cells|)[start..] && forall i :: 0 <= i < |stale| ==> l < |stale[i]|
    ensures |stale| == |cells| && cols == Patch(stale, l, cells)
  {
    cols := [];
    while |cols| < |cells|
      invariant |cols| <= |cells| && forall i :: 0 <= i < |cols| ==> cols[i] == stale[i][l := cells[i]]
    {
      var i := |cols|;
      StaleAt(bs, st, table, start, |cells|, i);
      cols := cols + [At(bs, st.mem, table, start + i)[l := cells[i]]];
    }
  }

  /** One layer of a sequence, position by position. */
  method GatherLayer(bs: nat, st: Store, table: seq<nat>, n: nat, l: nat) returns (cells: seq<Cell>)
    requires Shaped(bs, st) && InRange(st, table) && n <= |table| * bs
    requires forall p :: 0 <= p < n ==> l < |Gather(bs, st, table, n)[p]|
    ensures cells == LayerOf(Gather(bs, st, table, n), l)
  {
    ghost var view := Gather(bs, st, table, n);
    cells := [];
    while |cells| < n
      invariant |cells| <= n && cells == LayerOf(view, l)[..|cells|]
    {
      var p := |cells|;
      PageBound(p, |table|, bs);
      assert view[p] == At(bs, st.mem, table, p);
      cells := cells + [At(bs, st.mem, table, p)[l]];
    }
  }

  // ---- one layer of one sequence

  /** Layer l's cells as the reference has them. */
  ghost predicate RightCells<X>(net: Net<X>, view: seq<Column>, toks: seq<Token>, l: nat, cells: seq<Cell>)
    requires Layered(view, net.layers)
  {
    var cols := Cols(net, view, toks);
    |cells| == |toks| && forall i :: 0 <= i < |toks| && |view| + i < |cols| && l < |cols[|view| + i]| ==>
      cells[i] == cols[|view| + i][l]
  }

  /** Layer by layer, the hidden rows are the reference's. */
  ghost predicate RightRows<X>(net: Net<X>, view: seq<Column>, toks: seq<Token>, l: nat, x: seq<X>)
    requires Layered(view, net.layers)
  {
    ColsAt(net, view, toks, 0);
    var cols := Cols(net, view, toks);
    && |x| == |toks| && l <= net.layers
    && forall i :: 0 <= i < |toks| ==> x[i] == RowAt(net, cols[..|view| + i], toks[i], l)
  }

  function CellsOf<X>(net: Net<X>, x: seq<X>, start: nat, l: nat): (cells: seq<Cell>)
    ensures |cells| == |x|
  {
    seq(|x|, i requires 0 <= i < |x| => net.cell(l, x[i], start + i))
  }

  /** Every row attends to the cells up to its own position. */
  function MixRows<X>(net: Net<X>, x: seq<X>, start: nat, l: nat, cells: seq<Cell>): (y: seq<X>)
    requires start + |x| == |cells|
    ensures |y| == |x|
  {
    seq(|x|, i requires 0 <= i < |x| => net.mix(l, x[i], start + i, cells[..start + i + 1]))
  }

  lemma EmbedIsRight<X>(net: Net<X>, view: seq<Column>, toks: seq<Token>)
    requires Layered(view, net.layers)
    ensures RightRows(net, view, toks, 0, seq(|toks|, i requires 0 <= i < |toks| => net.embed(toks[i])))
  {
    ColsAt(net, view, toks, 0);
  }

  lemma RowsGiveCells<X>(net: Net<X>, view: seq<Column>, toks: seq<Token>, l: nat, x: seq<X>)
    requires Layered(view, net.layers) && l < net.layers && RightRows(net, view, toks, l, x)
    ensures RightCells(net, view, toks, l, CellsOf(net, x, |view|, l))
  {
    var cols := Cols(net, view, toks);
    forall i | 0 <= i < |toks|
      ensures |view| + i < |cols| && l < |cols[|view| + i]| && CellsOf(net, x, |view|, l)[i] == cols[|view| + i][l]
    {
      ColsAt(net, view, toks, i);
      hide RowAt;
    }
  }

  lemma RowsMixRight<X>(net: Net<X>, view: seq<Column>, toks: seq<Token>, l: nat, x: seq<X>)
    requires Layered(view, net.layers) && l < net.layers && RightRows(net, view, toks, l, x)
    ensures |Cols(net, view, toks)| == |view| + |x| && Layered(Cols(net, view, toks), net.layers)
    ensures RightRows(net, view, toks, l + 1, MixRows(net, x, |view|, l, LayerOf(Cols(net, view, toks), l)))
  {
    ColsAt(net, view, toks, 0);
    var cols := Cols(net, view, toks);
    var cells := LayerOf(cols, l);
    var y := MixRows(net, x, |view|, l, cells);
    forall i | 0 <= i < |toks|
      ensures y[i] == RowAt(net, cols[..|view| + i], toks[i], l + 1)
    {
      ColsAt(net, view, toks, i);
      var prev := cols[..|view| + i];
      assert cells[..|view| + i + 1] == LayerOf(prev, l) + [cols[|view| + i][l]];
      assert cols[|view| + i][l] == net.cell(l, RowAt(net, prev, toks[i], l), |prev|) by { hide RowAt; }
    }
  }

  /** The columns agree in every layer once they agree layer by layer. */
  lemma AllLayers<X>(net: Net<X>, got: seq<Column>, view: seq<Column>, toks: seq<Token>)
    requires Layered(view, net.layers) && Layered(got, net.layers)
    requires |got| == |view| + |toks| && got[..|view|] == view
    requires FirstLayers(got, Cols(net, view, toks), |view|, net.layers)
    ensures got == Cols(net, view, toks)
  {
    var cols := Cols(net, view, toks);
    ColsAt(net, view, toks, 0);
    hide Cols;
    forall p | 0 <= p < |got|
      ensures got[p] == cols[p]
    {
      if p < |view| {
        assert got[p] == view[p] == cols[..|view|][p];
      } else {
        assert |got[p]| == |cols[p]| == net.layers;
      }
    }
  }

  /** A layer's write moves the sequence one layer on; its gather is the reference's layer. */
  lemma LayerWritten<X>(bs: nat, net: Net<X>, st: Store, table: seq<nat>, view: seq<Column>, toks: seq<Token>, l: nat,
                        cells: seq<Cell>, stale: seq<Column>, w: Written, others: multiset<nat>)
    requires bs > 0 && l < net.layers && toks != [] && Progressed(bs, net, st, table, view, toks, l)
    requires FreeListOk(st.pool) && Counts(st.pool, multiset(table) + others)
    requires RightCells(net, view, toks, l, cells)
    requires |stale| == |cells| && Layered(stale, net.layers)
    requires w == Write(bs, st, table, |view|, Patch(stale, l, cells)) && w.Written?
    requires StoreLayered(w.store, net.layers)
    requires |view| + |toks| <= |table| * bs ==> stale == Gather(bs, st, table, |view| + |toks|)[|view|..]
    ensures Progressed(bs, net, w.store, w.table, view, toks, l + 1)
    ensures Counts(w.store.pool, multiset(w.table) + others) && Kept(st, w.store, others)
    ensures |view| + |toks| <= |w.table| * bs
    ensures Layered(Gather(bs, w.store, w.table, |view| + |toks|), net.layers)
    ensures Layered(Cols(net, view, toks), net.layers)
    ensures LayerOf(Gather(bs, w.store, w.table, |view| + |toks|), l) == LayerOf(Cols(net, view, toks), l)
  {
    var n, cols := |view| + |toks|, Cols(net, view, toks);
    hide Gather, Counts, FreeListOk, Write, Kept, Cols, Shaped, InRange, StoreLayered;
    WriteIsolated(bs, st, table, |view|, Patch(stale, l, cells), others);
    LayeredView(bs, w.store, w.table, n, net.layers);
    GatherPrefix(bs, w.store, w.table, |view|, n);
    ColsAt(net, view, toks, 0);
    var got := Gather(bs, w.store, w.table, n);
    assert got == view + Patch(stale, l, cells);
    assert got[..|view|] == view;
    PatchedLayers(net, view, toks, l, cells, stale, got, cols);
  }

  lemma PatchedLayers<X>(net: Net<X>, view: seq<Column>, toks: seq<Token>, l: nat, cells: seq<Cell>, stale: seq<Column>,
                         got: seq<Column>, cols: seq<Column>)
    requires Layered(view, net.layers) && l < net.layers && cols == Cols(net, view, toks)
    requires |cols| == |view| + |toks| && cols[..|view|] == view && Layered(cols, net.layers)
    requires RightCells(net, view, toks, l, cells) && |stale| == |cells| && Layered(stale, net.layers)
    requires got == view + Patch(stale, l, cells)
    requires l > 0 ==> FirstLayers(view + stale, cols, |view|, l)
    ensures FirstLayers(got, cols, |view|, l + 1)
    ensures LayerOf(got, l) == LayerOf(cols, l)
  {
    hide Cols;
    forall p | |view| <= p < |got|
      ensures |got[p]| == net.layers == |cols[p]| && got[p][l] == cols[p][l]
      ensures forall k :: 0 <= k < l ==> got[p][k] == cols[p][k]
    {
      assert got[p] == stale[p - |view|][l := cells[p - |view|]];
      if l > 0 {
        assert (view + stale)[p] == stale[p - |view|];
      }
    }
    forall p | 0 <= p < |view|
      ensures got[p] == cols[p]
    {
      assert got[p] == view[p] == cols[..|view|][p];
    }
  }
}
