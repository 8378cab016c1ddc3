/**
 The network on a whole sequence, with no cache, no blocks and no columns: in every
 layer a row attends to the cells of all rows up to and including itself. This is what
 the paged passes and token-by-token decoding compute.
 */
module PlainForward {
  import opened Paging
  import opened Decoding
  import opened PagedForward

  /** Row i of toks after l layers, behind positions whose cells are in view. */
  function Hidden<X>(net: Net<X>, view: seq<Column>, toks: seq<Token>, l: nat, i: nat): X
    requires Layered(view, net.layers) && l <= net.layers && i < |toks|
    decreases l, 0
  {
    if l == 0 then net.embed(toks[i])
    else net.mix(l - 1, Hidden(net, view, toks, l - 1, i), |view| + i, CellsUpTo(net, view, toks, l - 1, |view| + i))
  }

  /** Layer l's cell of position q. */
  function CellAt<X>(net: Net<X>, view: seq<Column>, toks: seq<Token>, l: nat, q: nat): Cell
    requires Layered(view, net.layers) && l < net.layers && q < |view| + |toks|
    decreases l, 1
  {
    if q < |view| then view[q][l] else net.cell(l, Hidden(net, view, toks, l, q - |view|), q)
  }

  /** What position p attends to: the cells of all positions up to its own. */
  function CellsUpTo<X>(net: Net<X>, view: seq<Column>, toks: seq<Token>, l: nat, p: nat): (cells: seq<Cell>)
    requires Layered(view, net.layers) && l < net.layers && p < |view| + |toks|
    ensures |cells| == p + 1 && forall q :: 0 <= q <= p ==> cells[q] == CellAt(net, view, toks, l, q)
    decreases l, 2
  {
    seq(p + 1, q requires 0 <= q <= p => CellAt(net, view, toks, l, q))
  }

  /** These columns are the cells of view and toks, layer by layer, and tok is read off the last row. */
  ghost predicate Computed<X>(net: Net<X>, view: seq<Column>, toks: seq<Token>, cols: seq<Column>, tok: Token) {
    && Layered(view, net.layers) && toks != [] && |cols| == |view| + |toks| && Layered(cols, net.layers)
    && (forall p, l :: 0 <= p < |cols| && 0 <= l < net.layers ==> cols[p][l] == CellAt(net, view, toks, l, p))
    && tok == net.head(Hidden(net, view, toks, net.layers, |toks| - 1))
  }

  /** The same of the columns a sequence reads from its blocks. */
  ghost predicate LeftPlain<X>(bs: nat, net: Net<X>, st: Store, table: seq<nat>, view: seq<Column>, toks: seq<Token>,
                               tok: Token) {
    && Shaped(bs, st) && InRange(st, table) && |view| + |toks| <= |table| * bs
    && Computed(net, view, toks, Gather(bs, st, table, |view| + |toks|), tok)
  }

  /** A token's hidden state behind the columns before it is its row of the whole sequence. */
  lemma {:induction false} HiddenIsRow<X>(net: Net<X>, view: seq<Column>, toks: seq<Token>, l: nat, i: nat)
    requires Layered(view, net.layers) && l <= net.layers && i < |toks|
    ensures var cols := Cols(net, view, toks);
      && |cols| == |view| + |toks| && Layered(cols, net.layers)
      && RowAt(net, cols[..|view| + i], toks[i], l) == Hidden(net, view, toks, l, i)
    decreases l
  {
    ColsAt(net, view, toks, i);
    hide Cols, CellAt, TokenColumn;
    if l > 0 {
      hide Hidden, RowAt;
      var cols := Cols(net, view, toks);
      HiddenIsRow(net, view, toks, l - 1, i);
      forall q | 0 <= q < |view| + i
        ensures cols[q][l - 1] == CellAt(net, view, toks, l - 1, q)
      {
        if q >= |view| {
          HiddenIsRow(net, view, toks, l - 1, q - |view|);
        }
        CellIsRight(net, view, toks, l - 1, q);
      }
      RowUnfolds(net, cols[..|view| + i], view, toks, l, i);
    }
  }

  lemma RowUnfolds<X>(net: Net<X>, prev: seq<Column>, view: seq<Column>, toks: seq<Token>, l: nat, i: nat)
    requires Layered(view, net.layers) && 0 < l <= net.layers && i < |toks|
    requires |prev| == |view| + i && Layered(prev, net.layers)
    requires RowAt(net, prev, toks[i], l - 1) == Hidden(net, view, toks, l - 1, i)
    requires forall q :: 0 <= q < |prev| ==> prev[q][l - 1] == CellAt(net, view, toks, l - 1, q)
    ensures RowAt(net, prev, toks[i], l) == Hidden(net, view, toks, l, i)
  {
    var x := RowAt(net, prev, toks[i], l - 1);
    assert CellAt(net, view, toks, l - 1, |prev|) == net.cell(l - 1, x, |prev|);
    assert LayerOf(prev, l - 1) + [net.cell(l - 1, x, |prev|)] == CellsUpTo(net, view, toks, l - 1, |prev|) by {
      hide CellAt, Hidden, RowAt;
    }
  }

  lemma CellIs<X>(net: Net<X>, view: seq<Column>, toks: seq<Token>, l: nat, q: nat)
    requires Layered(view, net.layers) && l < net.layers && q < |view| + |toks|
    ensures var cols := Cols(net, view, toks);
      && |cols| == |view| + |toks| && Layered(cols, net.layers)
      && cols[q][l] ==
           if q < |view| then view[q][l] else net.cell(l, RowAt(net, cols[..q], toks[q - |view|], l), q)
  {
    ColsAt(net, view, toks, if q < |view| then 0 else q - |view|);
    hide RowAt, Cols;
    var cols := Cols(net, view, toks);
    if q < |view| {
      assert cols[q] == cols[..|view|][q];
    }
  }

  lemma CellIsRight<X>(net: Net<X>, view: seq<Column>, toks: seq<Token>, l: nat, q: nat)
    requires Layered(view, net.layers) && l < net.layers && q < |view| + |toks|
    requires |Cols(net, view, toks)| == |view| + |toks| && Layered(Cols(net, view, toks), net.layers)
    requires q >= |view| ==>
      RowAt(net, Cols(net, view, toks)[..q], toks[q - |view|], l) == Hidden(net, view, toks, l, q - |view|)
    ensures Cols(net, view, toks)[q][l] == CellAt(net, view, toks, l, q)
  {
    CellIs(net, view, toks, l, q);
    hide Cols, RowAt, Hidden;
  }

  /** A token-by-token pass computes the plain network, behind any columns. */
  lemma PassIsPlain<X>(net: Net<X>, view: seq<Column>, toks: seq<Token>)
    requires Layered(view, net.layers) && toks != []
    ensures var cols := Cols(net, view, toks);
      && |cols| == |view| + |toks|
      && Computed(net, view, toks, cols, AsModel(net).pick(cols[..|cols| - 1], toks[|toks| - 1]))
  {
    ColsAt(net, view, toks, 0);
    HiddenIsRow(net, view, toks, net.layers, |toks| - 1);
    hide Cols, Hidden, RowAt, TokenColumn;
    var cols := Cols(net, view, toks);
    forall p, l | 0 <= p < |cols| && 0 <= l < net.layers
      ensures cols[p][l] == CellAt(net, view, toks, l, p)
    {
      if p >= |view| {
        HiddenIsRow(net, view, toks, l, p - |view|);
      }
      CellIsRight(net, view, toks, l, p);
    }
    assert cols[..|cols| - 1] == cols[..|view| + (|toks| - 1)];
  }

  lemma {:induction false} ColumnsAreCols<X>(net: Net<X>, view: seq<Token>, toks: seq<Token>)
    ensures Cols(net, Columns(AsModel(net), view), toks) == Columns(AsModel(net), view + toks)
    decreases |toks|
  {
    var m := AsModel(net);
    if toks == [] {
      assert view + toks == view;
    } else {
      var more := view + [toks[0]];
      assert more[..|more| - 1] == view && more + toks[1..] == view + toks;
      hide AsModel;
      ColumnsAreCols(net, more, toks[1..]);
    }
  }

  /** So the reference that the theorems about runs speak of is the plain network over the request's tokens. */
  lemma DecodingIsPlain<X>(net: Net<X>, toks: seq<Token>)
    requires toks != []
    ensures Computed(net, [], toks, Columns(AsModel(net), toks), NextToken(AsModel(net), toks))
  {
    var m := AsModel(net);
    assert Columns(m, []) == [] && [] + toks == toks;
    ColumnsAreCols(net, [], toks);
    PassIsPlain(net, [], toks);
    ColumnsPrefix(m, toks, |toks| - 1);
    hide *;
    NextIs(net, toks);
  }

  lemma NextIs<X>(net: Net<X>, toks: seq<Token>)
    requires toks != [] && Columns(AsModel(net), toks[..|toks| - 1]) == Columns(AsModel(net), toks)[..|toks| - 1]
    ensures NextToken(AsModel(net), toks) ==
      AsModel(net).pick(Columns(AsModel(net), toks)[..|toks| - 1], toks[|toks| - 1])
  {
    hide AsModel, Columns;
  }
}
