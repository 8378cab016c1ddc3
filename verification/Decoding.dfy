/**
 The reference: plain one-request autoregressive decoding.

 The numerics are abstract. A Column is what a token leaves in the KV cache at
 its position, over all layers; Model.col computes it from the columns of the
 earlier positions and the token, and Model.pick is greedy sampling of the
 logits the same forward pass yields.
 */
module Decoding {

  type Token = int

  /** One layer's K and V rows at one position. */
  datatype Cell = Cell(k: seq<real>, v: seq<real>)

  /** One position's cells, layer by layer. */
  type Column = seq<Cell>

  datatype Model = Model(
    col: (seq<Column>, Token) -> Column,
    pick: (seq<Column>, Token) -> Token,
    blank: Column)

  const EOS_ID: Token := 257

  /** The KV columns of a token sequence, computed one token at a time. */
  function Columns(m: Model, toks: seq<Token>): (cols: seq<Column>)
    ensures |cols| == |toks|
  {
    if toks == [] then [] else
      var front := Columns(m, toks[..|toks| - 1]);
      front + [m.col(front, toks[|toks| - 1])]
  }

  /** The column of the last token of a non-empty sequence. */
  function LastColumn(m: Model, toks: seq<Token>): Column
    requires toks != []
  {
    m.col(Columns(m, toks[..|toks| - 1]), toks[|toks| - 1])
  }

  /** The greedy next token after toks. */
  function NextToken(m: Model, toks: seq<Token>): Token
    requires toks != []
  {
    m.pick(Columns(m, toks[..|toks| - 1]), toks[|toks| - 1])
  }

  /** What plain decoding appends to toks: until EOS (unless ignored) or `left` tokens. */
  function Continue(m: Model, toks: seq<Token>, left: nat, ignoreEos: bool): (out: seq<Token>)
    requires toks != []
    ensures |out| <= left
    decreases left
  {
    if left == 0 then [] else
      var t := NextToken(m, toks);
      if t == EOS_ID && !ignoreEos then [t]
      else [t] + Continue(m, toks + [t], left - 1, ignoreEos)
  }

  /** Decoding is over: the limit is reached, or the last token ends the text. */
  predicate Stops(out: seq<Token>, left: nat, ignoreEos: bool) {
    |out| >= left || (out != [] && out[|out| - 1] == EOS_ID && !ignoreEos)
  }

  /** Each token is the greedy choice after those before it, and none comes where decoding is over. */
  ghost predicate Greedy(m: Model, toks: seq<Token>, out: seq<Token>, left: nat, ignoreEos: bool)
    requires toks != []
  {
    forall i :: 0 <= i < |out| ==> out[i] == NextToken(m, toks + out[..i]) && !Stops(out[..i], left, ignoreEos)
  }

  /** Plain decoding is greedy, and ends at the first place it may. */
  lemma {:induction false} GreedyUntilOver(m: Model, toks: seq<Token>, left: nat, ignoreEos: bool)
    requires toks != []
    ensures Greedy(m, toks, Continue(m, toks, left, ignoreEos), left, ignoreEos)
    ensures Stops(Continue(m, toks, left, ignoreEos), left, ignoreEos)
    decreases left
  {
    ContinueIs(m, toks, left, ignoreEos);
    hide *;
    var t := NextToken(m, toks);
    if left == 0 {
      NoToken(m, toks, ignoreEos);
    } else if t == EOS_ID && !ignoreEos {
      OneToken(m, toks, t, left, ignoreEos);
    } else {
      GreedyUntilOver(m, toks + [t], left - 1, ignoreEos);
      GreedyCons(m, toks, t, Continue(m, toks + [t], left - 1, ignoreEos), left, ignoreEos);
    }
  }

  lemma ContinueIs(m: Model, toks: seq<Token>, left: nat, ignoreEos: bool)
    requires toks != []
    ensures var t := NextToken(m, toks);
      Continue(m, toks, left, ignoreEos) ==
        if left == 0 then []
        else if t == EOS_ID && !ignoreEos then [t]
        else [t] + Continue(m, toks + [t], left - 1, ignoreEos)
  {
    hide NextToken;
  }

  lemma NoToken(m: Model, toks: seq<Token>, ignoreEos: bool)
    requires toks != []
    ensures Greedy(m, toks, [], 0, ignoreEos) && Stops([], 0, ignoreEos)
  {
  }

  lemma OneToken(m: Model, toks: seq<Token>, t: Token, left: nat, ignoreEos: bool)
    requires toks != [] && left > 0 && t == NextToken(m, toks)
    ensures Greedy(m, toks, [t], left, ignoreEos)
    ensures t == EOS_ID && !ignoreEos ==> Stops([t], left, ignoreEos)
  {
    hide NextToken;
    assert toks + [t][..0] == toks;
  }

  lemma GreedyCons(m: Model, toks: seq<Token>, t: Token, rest: seq<Token>, left: nat, ignoreEos: bool)
    requires toks != [] && left > 0 && t == NextToken(m, toks) && (t != EOS_ID || ignoreEos)
    requires Greedy(m, toks + [t], rest, left - 1, ignoreEos) && Stops(rest, left - 1, ignoreEos)
    ensures Greedy(m, toks, [t] + rest, left, ignoreEos) && Stops([t] + rest, left, ignoreEos)
  {
    hide NextToken;
    assert ([t] + rest)[|rest|] == if rest == [] then t else rest[|rest| - 1];
    var out := [t] + rest;
    forall i | 0 <= i < |out|
      ensures out[i] == NextToken(m, toks + out[..i]) && !Stops(out[..i], left, ignoreEos)
    {
      if i == 0 {
        assert toks + out[..0] == toks;
      } else {
        var front := rest[..i - 1];
        assert out[..i] == [t] + front && toks + out[..i] == toks + [t] + front;
        assert out[i] == rest[i - 1] && !Stops(front, left - 1, ignoreEos);
        assert ([t] + front)[i - 1] == if front == [] then t else front[i - 2];
      }
    }
  }

  /** Column p of a sequence depends on the tokens up to p only. */
  lemma {:induction false} ColumnAt(m: Model, toks: seq<Token>, p: nat)
    requires p < |toks|
    ensures Columns(m, toks)[p] == LastColumn(m, toks[..p + 1])
  {
    if p == |toks| - 1 {
      assert toks[..p + 1] == toks;
    } else {
      var front := toks[..|toks| - 1];
      ColumnAt(m, front, p);
      assert front[..p + 1] == toks[..p + 1];
    }
  }

  /** A prefix of the tokens has the prefix of the columns. */
  lemma {:induction false} ColumnsPrefix(m: Model, toks: seq<Token>, n: nat)
    requires n <= |toks|
    ensures Columns(m, toks[..n]) == Columns(m, toks)[..n]
  {
    forall p | 0 <= p < n
      ensures Columns(m, toks[..n])[p] == Columns(m, toks)[p]
    {
      ColumnAt(m, toks, p);
      ColumnAt(m, toks[..n], p);
      assert toks[..n][..p + 1] == toks[..p + 1];
    }
  }
}
