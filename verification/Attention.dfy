/**
 Tiled online-softmax attention against the naive form, over the reals, for one
 head (heads never mix). exp is any positive function that turns sums into products.
 */
module Attention {
  import opened Options

  type Vec = seq<real>

  /** A score; masked scores are minus infinity. */
  datatype Score = NegInf | Fin(v: real)

  type Exp = real -> real

  function Plus(x: real, y: real): real { x + y }

  ghost predicate IsExp(exp: Exp) {
    && (forall x :: exp(x) > 0.0)
    && (forall x, y {:trigger Plus(x, y)} :: exp(Plus(x, y)) == exp(x) * exp(y))
  }

  // ---- scores

  function Dot(x: Vec, y: Vec): real
    requires |x| == |y|
  {
    if x == [] then 0.0 else Dot(x[..|x| - 1], y[..|y| - 1]) + x[|x| - 1] * y[|y| - 1]
  }

  /** Key j is visible to query i when there is no mask or j is not in i's future. */
  predicate Visible(offset: Option<int>, i: nat, j: nat) {
    offset.None? || j <= i + offset.value
  }

  function ScoreOf(q: Vec, k: Vec, scale: real, offset: Option<int>, i: nat, j: nat): Score
    requires |q| == |k|
  {
    if Visible(offset, i, j) then Fin(Dot(q, k) * scale) else NegInf
  }

  function MaxOf(a: Score, b: Score): Score {
    if a.NegInf? then b else if b.NegInf? then a else if a.v >= b.v then a else b
  }

  function MaxScore(x: seq<Score>): Score {
    if x == [] then NegInf else MaxOf(MaxScore(x[..|x| - 1]), x[|x| - 1])
  }

  /** exp of a score against a finite reference; minus infinity gives zero. */
  function Power(exp: Exp, s: Score, m: real): real {
    if s.Fin? then exp(s.v - m) else 0.0
  }

  /** The powers of a row of scores, summed. */
  function Mass(exp: Exp, x: seq<Score>, m: real): real {
    if x == [] then 0.0 else Mass(exp, x[..|x| - 1], m) + Power(exp, x[|x| - 1], m)
  }

  /** The same, weighting component c of the values. */
  function Pull(exp: Exp, x: seq<Score>, vs: seq<Vec>, m: real, c: nat): real
    requires |x| == |vs| && forall j :: 0 <= j < |vs| ==> c < |vs[j]|
  {
    if x == [] then 0.0
    else Pull(exp, x[..|x| - 1], vs[..|vs| - 1], m, c) + Power(exp, x[|x| - 1], m) * vs[|vs| - 1][c]
  }

  lemma {:induction false} MassPositive(exp: Exp, x: seq<Score>, m: real)
    requires IsExp(exp)
    ensures MaxScore(x).NegInf? ==> Mass(exp, x, m) == 0.0
    ensures MaxScore(x).Fin? ==> Mass(exp, x, m) > 0.0
    decreases |x|
  {
    if x != [] {
      MassPositive(exp, x[..|x| - 1], m);
      var s := x[|x| - 1];
      assert s.Fin? ==> exp(s.v - m) > 0.0;
    }
  }

  // ---- the naive form

  function Softmax(exp: Exp, x: seq<Score>): (p: Vec)
    requires IsExp(exp) && MaxScore(x).Fin?
    ensures |p| == |x|
  {
    var m := MaxScore(x).v;
    MassPositive(exp, x, m);
    seq(|x|, j requires 0 <= j < |x| => Power(exp, x[j], m) / Mass(exp, x, m))
  }

  function Combine(p: Vec, vs: seq<Vec>, c: nat): real
    requires |p| == |vs| && forall j :: 0 <= j < |vs| ==> c < |vs[j]|
  {
    if p == [] then 0.0 else Combine(p[..|p| - 1], vs[..|vs| - 1], c) + p[|p| - 1] * vs[|vs| - 1][c]
  }

  /** q: queries, ks and vs: keys and values, all of dimension d. */
  ghost predicate Shapes(q: seq<Vec>, ks: seq<Vec>, vs: seq<Vec>, d: nat) {
    && |ks| == |vs|
    && (forall i :: 0 <= i < |q| ==> |q[i]| == d)
    && (forall j :: 0 <= j < |ks| ==> |ks[j]| == d && |vs[j]| == d)
  }

  /** The scores of query i against keys from..to. */
  function Scores(q: seq<Vec>, ks: seq<Vec>, scale: real, offset: Option<int>, i: nat, from: nat,
                  end: nat): (s: seq<Score>)
    requires i < |q| && from <= end <= |ks| && forall j :: 0 <= j < |ks| ==> |ks[j]| == |q[i]|
    ensures |s| == end - from
  {
    seq(end - from, j requires 0 <= j < end - from => ScoreOf(q[i], ks[from + j], scale, offset, i, from + j))
  }

  /** With no mask or a non-negative offset every query sees key 0. */
  lemma {:induction false} SeesFirst(q: seq<Vec>, ks: seq<Vec>, scale: real, offset: Option<int>, i: nat, end: nat)
    requires i < |q| && 0 < end <= |ks| && forall j :: 0 <= j < |ks| ==> |ks[j]| == |q[i]|
    requires offset.None? || offset.value >= 0
    ensures MaxScore(Scores(q, ks, scale, offset, i, 0, end)).Fin?
    decreases end
  {
    var s := Scores(q, ks, scale, offset, i, 0, end);
    if end > 1 {
      SeesFirst(q, ks, scale, offset, i, end - 1);
      assert s[..end - 1] == Scores(q, ks, scale, offset, i, 0, end - 1);
    } else {
      assert s[0].Fin?;
    }
  }

  ghost predicate Causal(ks: seq<Vec>, offset: Option<int>) {
    |ks| > 0 && (offset.None? || offset.value >= 0)
  }

  function NaiveRow(exp: Exp, q: seq<Vec>, ks: seq<Vec>, vs: seq<Vec>, scale: real, offset: Option<int>, d: nat,
                    i: nat): Vec
    requires IsExp(exp) && Shapes(q, ks, vs, d) && Causal(ks, offset) && i < |q|
  {
    SeesFirst(q, ks, scale, offset, i, |ks|);
    var p := Softmax(exp, Scores(q, ks, scale, offset, i, 0, |ks|));
    seq(d, c requires 0 <= c < d => Combine(p, vs, c))
  }

  function NaiveAttention(exp: Exp, q: seq<Vec>, ks: seq<Vec>, vs: seq<Vec>, scale: real, offset: Option<int>,
                          d: nat): seq<Vec>
    requires IsExp(exp) && Shapes(q, ks, vs, d) && Causal(ks, offset)
  {
    seq(|q|, i requires 0 <= i < |q| => NaiveRow(exp, q, ks, vs, scale, offset, d, i))
  }

  // ---- what attention is

  function Sum(x: Vec): real {
    if x == [] then 0.0 else Sum(x[..|x| - 1]) + x[|x| - 1]
  }

  function Products(x: Vec, y: Vec): (p: Vec)
    requires |x| == |y|
    ensures |p| == |x| && forall c :: 0 <= c < |p| ==> p[c] == x[c] * y[c]
  {
    seq(|x|, c requires 0 <= c < |x| => x[c] * y[c])
  }

  /** Component c of every value. */
  function Component(vs: seq<Vec>, c: nat): (x: Vec)
    requires forall j :: 0 <= j < |vs| ==> c < |vs[j]|
    ensures |x| == |vs| && forall j :: 0 <= j < |vs| ==> x[j] == vs[j][c]
  {
    seq(|vs|, j requires 0 <= j < |vs| => vs[j][c])
  }

  /** The scaled product of a query and a key. */
  function Likeness(x: Vec, k: Vec, scale: real): real
    requires |x| == |k|
  {
    scale * Sum(Products(x, k))
  }

  /**
   The weights of the query at position i: they sum to 1, a key has one if and only if there is no
   mask or it is not in the query's future, and two such keys' weights are in the ratio of exp.
   */
  ghost predicate Weights(exp: Exp, x: Vec, ks: seq<Vec>, scale: real, offset: Option<int>, i: nat, p: Vec)
    requires forall j :: 0 <= j < |ks| ==> |ks[j]| == |x|
  {
    && |p| == |ks| && Sum(p) == 1.0
    && (forall j :: 0 <= j < |p| ==> p[j] >= 0.0)
    && (forall j :: 0 <= j < |p| ==> (p[j] > 0.0 <==> offset.None? || j <= i + offset.value))
    && forall j, k :: 0 <= j < |p| && 0 <= k < |p| && p[j] > 0.0 && p[k] > 0.0 ==>
         p[j] * exp(Likeness(x, ks[k], scale)) == p[k] * exp(Likeness(x, ks[j], scale))
  }

  /** The row is the weighted sum of the values. */
  ghost predicate Averages(p: Vec, vs: seq<Vec>, d: nat, row: Vec) {
    && |p| == |vs| && (forall j :: 0 <= j < |vs| ==> |vs[j]| == d) && |row| == d
    && forall c :: 0 <= c < d ==> row[c] == Sum(Products(p, Component(vs, c)))
  }

  ghost predicate Attends(exp: Exp, x: Vec, ks: seq<Vec>, vs: seq<Vec>, scale: real, offset: Option<int>, d: nat,
                          i: nat, row: Vec)
    requires forall j :: 0 <= j < |ks| ==> |ks[j]| == |x|
  {
    exists p :: Weights(exp, x, ks, scale, offset, i, p) && Averages(p, vs, d, row)
  }

  lemma ProductsFront(x: Vec, y: Vec, n: nat)
    requires n <= |x| == |y|
    ensures Products(x, y)[..n] == Products(x[..n], y[..n])
  {
    forall c | 0 <= c < n
      ensures Products(x, y)[..n][c] == Products(x[..n], y[..n])[c]
    {
      assert x[..n][c] == x[c] && y[..n][c] == y[c];
    }
  }

  lemma {:induction false} DotIsSum(x: Vec, y: Vec)
    requires |x| == |y|
    ensures Dot(x, y) == Sum(Products(x, y))
  {
    if x != [] {
      DotIsSum(x[..|x| - 1], y[..|y| - 1]);
      ProductsFront(x, y, |x| - 1);
    }
  }

  lemma {:induction false} CombineIsSum(p: Vec, vs: seq<Vec>, c: nat)
    requires |p| == |vs| && forall j :: 0 <= j < |vs| ==> c < |vs[j]|
    ensures Combine(p, vs, c) == Sum(Products(p, Component(vs, c)))
    decreases |p|
  {
    if p != [] {
      var p', vs' := p[..|p| - 1], vs[..|vs| - 1];
      CombineIsSum(p', vs', c);
      assert Component(vs, c)[..|p| - 1] == Component(vs', c);
      ProductsFront(p, Component(vs, c), |p| - 1);
    }
  }

  /** p is the powers of the scores over z. */
  ghost predicate Shares(exp: Exp, x: seq<Score>, m: real, z: real, p: Vec) {
    |p| == |x| && forall j :: 0 <= j < |x| ==> p[j] * z == Power(exp, x[j], m)
  }

  /** Positive exactly at finite scores, in the ratio of exp. */
  ghost predicate Graded(exp: Exp, x: seq<Score>, p: Vec) {
    && |p| == |x| && (forall j :: 0 <= j < |x| ==> p[j] >= 0.0)
    && (forall j :: 0 <= j < |x| ==> (p[j] > 0.0 <==> x[j].Fin?))
    && forall j, k :: 0 <= j < |x| && 0 <= k < |x| && x[j].Fin? && x[k].Fin? ==>
         p[j] * exp(x[k].v) == p[k] * exp(x[j].v)
  }

  lemma {:induction false} SumIsMass(exp: Exp, x: seq<Score>, m: real, z: real, p: Vec)
    requires Shares(exp, x, m, z, p)
    ensures Sum(p) * z == Mass(exp, x, m)
    decreases |x|
  {
    if x != [] {
      var n := |x| - 1;
      assert Shares(exp, x[..n], m, z, p[..n]) && p[n] * z == Power(exp, x[n], m);
      hide Shares;
      SumIsMass(exp, x[..n], m, z, p[..n]);
      assert (Sum(p[..n]) + p[n]) * z == Sum(p[..n]) * z + p[n] * z;
    }
  }

  lemma SoftmaxShares(exp: Exp, x: seq<Score>)
    requires IsExp(exp) && MaxScore(x).Fin?
    ensures var m := MaxScore(x).v;
      Mass(exp, x, m) > 0.0 && Shares(exp, x, m, Mass(exp, x, m), Softmax(exp, x))
  {
    var m := MaxScore(x).v;
    MassPositive(exp, x, m);
    SoftmaxIs(exp, x, m, Mass(exp, x, m));
  }

  lemma SoftmaxIs(exp: Exp, x: seq<Score>, m: real, z: real)
    requires IsExp(exp) && MaxScore(x) == Fin(m) && z == Mass(exp, x, m) && z > 0.0
    ensures Shares(exp, x, m, z, Softmax(exp, x))
  {
    hide IsExp, Mass, MaxScore, Power, Softmax;
    forall j | 0 <= j < |x|
      ensures Softmax(exp, x)[j] * z == Power(exp, x[j], m)
    {
      SoftmaxAt(exp, x, m, z, j);
    }
  }

  lemma SoftmaxAt(exp: Exp, x: seq<Score>, m: real, z: real, j: nat)
    requires IsExp(exp) && MaxScore(x) == Fin(m) && z == Mass(exp, x, m) && z > 0.0 && j < |x|
    ensures Softmax(exp, x)[j] * z == Power(exp, x[j], m)
  {
    hide IsExp, Mass, MaxScore, Power;
    var a := Power(exp, x[j], m);
    assert Softmax(exp, x)[j] == a / z;
    hide *;
    Quotients(a, z);
  }

  lemma Quotients(a: real, z: real)
    requires z > 0.0
    ensures a / z * z == a
  {
  }

  lemma SharesGraded(exp: Exp, x: seq<Score>, m: real, z: real, p: Vec)
    requires IsExp(exp) && z > 0.0 && Shares(exp, x, m, z, p)
    ensures Graded(exp, x, p)
  {
    hide IsExp, Power;
    forall j | 0 <= j < |x|
      ensures p[j] >= 0.0 && (p[j] > 0.0 <==> x[j].Fin?)
    {
      var a := Power(exp, x[j], m);
      assert p[j] * z == a;
      PowerSign(exp, x[j], m);
      hide *;
      FactorSign(p[j], z, a);
    }
    forall j, k | 0 <= j < |x| && 0 <= k < |x| && x[j].Fin? && x[k].Fin?
      ensures p[j] * exp(x[k].v) == p[k] * exp(x[j].v)
    {
      assert p[j] * z == Power(exp, x[j], m) && p[k] * z == Power(exp, x[k], m);
      hide *;
      Ratio(exp, p[j], p[k], z, x[j], x[k], m);
    }
  }

  lemma PowerSign(exp: Exp, s: Score, m: real)
    requires IsExp(exp)
    ensures Power(exp, s, m) >= 0.0 && (Power(exp, s, m) > 0.0 <==> s.Fin?)
  {
    assert s.Fin? ==> exp(s.v - m) > 0.0;
  }

  lemma FactorSign(p: real, z: real, a: real)
    requires z > 0.0 && p * z == a && a >= 0.0
    ensures p >= 0.0 && (p > 0.0 <==> a > 0.0)
  {
  }

  lemma Ratio(exp: Exp, a: real, b: real, z: real, s: Score, t: Score, m: real)
    requires IsExp(exp) && s.Fin? && t.Fin? && z > 0.0 && a * z == Power(exp, s, m) && b * z == Power(exp, t, m)
    ensures a * exp(t.v) == b * exp(s.v)
  {
    SamePower(exp, s.v, t.v, m);
    var e, f := exp(s.v - m), exp(t.v - m);
    assert a * z == e && b * z == f;
    hide *;
    Crossed(a, b, z, e, f, exp(s.v), exp(t.v));
  }

  /** Softmax is such a grading, and sums to 1. */
  lemma SoftmaxWeighs(exp: Exp, x: seq<Score>)
    requires IsExp(exp) && MaxScore(x).Fin?
    ensures Graded(exp, x, Softmax(exp, x)) && Sum(Softmax(exp, x)) == 1.0
  {
    hide *;
    SoftmaxShares(exp, x);
    var m := MaxScore(x).v;
    var p, z := Softmax(exp, x), Mass(exp, x, m);
    SharesGraded(exp, x, m, z, p);
    SumIsMass(exp, x, m, z, p);
    SameFactor(Sum(p), 1.0, z);
  }

  lemma SamePower(exp: Exp, s: real, t: real, m: real)
    requires IsExp(exp)
    ensures exp(s - m) * exp(t) == exp(t - m) * exp(s)
  {
    assert Plus(s - m, t) == Plus(t - m, s);
  }

  lemma Crossed(a: real, b: real, z: real, e: real, f: real, s: real, t: real)
    requires z > 0.0 && a * z == e && b * z == f && e * t == f * s
    ensures a * t == b * s
  {
    assert (a * t) * z == (b * s) * z by {
      assert (a * t) * z == (a * z) * t;
      assert (b * s) * z == (b * z) * s;
    }
    SameFactor(a * t, b * s, z);
  }

  lemma SameFactor(a: real, b: real, z: real)
    requires z > 0.0 && a * z == b * z
    ensures a == b
  {
    assert (a - b) * z == 0.0;
  }

  /** The naive form is attention: softmax weights over the keys up to the query's position. */
  lemma NaiveAttends(exp: Exp, q: seq<Vec>, ks: seq<Vec>, vs: seq<Vec>, scale: real, offset: Option<int>, d: nat,
                     i: nat)
    requires IsExp(exp) && Shapes(q, ks, vs, d) && Causal(ks, offset) && i < |q|
    ensures Attends(exp, q[i], ks, vs, scale, offset, d, i, NaiveRow(exp, q, ks, vs, scale, offset, d, i))
  {
    SeesFirst(q, ks, scale, offset, i, |ks|);
    ShapesAre(q, ks, vs, d);
    ScoresAre(q, ks, scale, offset, i);
    var x := Scores(q, ks, scale, offset, i, 0, |ks|);
    SoftmaxWeighs(exp, x);
    var p, row := Softmax(exp, x), NaiveRow(exp, q, ks, vs, scale, offset, d, i);
    RowIs(exp, q, ks, vs, scale, offset, d, i);
    hide *;
    GradedWeights(exp, q[i], ks, scale, offset, i, x, p);
    forall c | 0 <= c < d
      ensures row[c] == Sum(Products(p, Component(vs, c)))
    {
      CombineIsSum(p, vs, c);
    }
    IsAverage(p, vs, d, row);
    IsAttention(exp, q[i], ks, vs, scale, offset, d, i, p, row);
  }

  lemma RowIs(exp: Exp, q: seq<Vec>, ks: seq<Vec>, vs: seq<Vec>, scale: real, offset: Option<int>, d: nat, i: nat)
    requires IsExp(exp) && Shapes(q, ks, vs, d) && Causal(ks, offset) && i < |q|
    requires MaxScore(Scores(q, ks, scale, offset, i, 0, |ks|)).Fin?
    ensures var row := NaiveRow(exp, q, ks, vs, scale, offset, d, i);
      |row| == d && forall c :: 0 <= c < d ==>
        row[c] == Combine(Softmax(exp, Scores(q, ks, scale, offset, i, 0, |ks|)), vs, c)
  {
    hide IsExp, Softmax, Scores, MaxScore, Combine;
  }

  lemma ScoresAre(q: seq<Vec>, ks: seq<Vec>, scale: real, offset: Option<int>, i: nat)
    requires i < |q| && forall j :: 0 <= j < |ks| ==> |ks[j]| == |q[i]|
    ensures var x := Scores(q, ks, scale, offset, i, 0, |ks|);
      forall j :: 0 <= j < |ks| ==>
        && (x[j].Fin? <==> offset.None? || j <= i + offset.value)
        && (x[j].Fin? ==> x[j].v == Likeness(q[i], ks[j], scale))
  {
    var x := Scores(q, ks, scale, offset, i, 0, |ks|);
    hide Dot, Sum;
    forall j | 0 <= j < |ks|
      ensures x[j].Fin? <==> offset.None? || j <= i + offset.value
      ensures x[j].Fin? ==> x[j].v == Likeness(q[i], ks[j], scale)
    {
      DotIsSum(q[i], ks[j]);
    }
  }

  lemma GradedWeights(exp: Exp, x: Vec, ks: seq<Vec>, scale: real, offset: Option<int>, i: nat, s: seq<Score>, p: Vec)
    requires |s| == |ks| && Sum(p) == 1.0 && (forall j :: 0 <= j < |ks| ==> |ks[j]| == |x|) && Graded(exp, s, p)
    requires forall j :: 0 <= j < |ks| ==>
      && (s[j].Fin? <==> offset.None? || j <= i + offset.value)
      && (s[j].Fin? ==> s[j].v == Likeness(x, ks[j], scale))
    ensures Weights(exp, x, ks, scale, offset, i, p)
  {
    hide Sum, Likeness;
    forall j, k | 0 <= j < |p| && 0 <= k < |p| && p[j] > 0.0 && p[k] > 0.0
      ensures p[j] * exp(Likeness(x, ks[k], scale)) == p[k] * exp(Likeness(x, ks[j], scale))
    {
      assert s[j].Fin? && s[k].Fin?;
      assert p[j] * exp(s[k].v) == p[k] * exp(s[j].v);
    }
  }

  lemma IsAverage(p: Vec, vs: seq<Vec>, d: nat, row: Vec)
    requires |p| == |vs| && (forall j :: 0 <= j < |vs| ==> |vs[j]| == d) && |row| == d
    requires forall c :: 0 <= c < d ==> row[c] == Sum(Products(p, Component(vs, c)))
    ensures Averages(p, vs, d, row)
  {
    hide Sum;
  }

  lemma IsAttention(exp: Exp, x: Vec, ks: seq<Vec>, vs: seq<Vec>, scale: real, offset: Option<int>, d: nat, i: nat,
                    p: Vec, row: Vec)
    requires forall j :: 0 <= j < |ks| ==> |ks[j]| == |x|
    requires Weights(exp, x, ks, scale, offset, i, p) && Averages(p, vs, d, row)
    ensures Attends(exp, x, ks, vs, scale, offset, d, i, row)
  {
    hide Weights, Averages;
  }

  /** Every query attends. */
  ghost predicate AllAttend(exp: Exp, q: seq<Vec>, ks: seq<Vec>, vs: seq<Vec>, scale: real, offset: Option<int>, d: nat,
                            out: seq<Vec>)
    requires Shapes(q, ks, vs, d)
  {
    |out| == |q| && forall i :: 0 <= i < |q| ==> Attends(exp, q[i], ks, vs, scale, offset, d, i, out[i])
  }

  lemma NaiveAllAttend(exp: Exp, q: seq<Vec>, ks: seq<Vec>, vs: seq<Vec>, scale: real, offset: Option<int>, d: nat)
    requires IsExp(exp) && Shapes(q, ks, vs, d) && Causal(ks, offset)
    ensures AllAttend(exp, q, ks, vs, scale, offset, d, NaiveAttention(exp, q, ks, vs, scale, offset, d))
  {
    hide NaiveRow, Attends, IsExp;
    forall i | 0 <= i < |q|
      ensures Attends(exp, q[i], ks, vs, scale, offset, d, i, NaiveRow(exp, q, ks, vs, scale, offset, d, i))
    {
      NaiveAttends(exp, q, ks, vs, scale, offset, d, i);
    }
  }

  /** There is only one such row. */
  lemma AttendsOnce(exp: Exp, x: Vec, ks: seq<Vec>, vs: seq<Vec>, scale: real, offset: Option<int>, d: nat, i: nat,
                    row: Vec, row': Vec)
    requires IsExp(exp) && ks != [] && (offset.None? || offset.value >= 0)
    requires forall j :: 0 <= j < |ks| ==> |ks[j]| == |x|
    requires Attends(exp, x, ks, vs, scale, offset, d, i, row) && Attends(exp, x, ks, vs, scale, offset, d, i, row')
    ensures row == row'
  {
    var p :| Weights(exp, x, ks, scale, offset, i, p) && Averages(p, vs, d, row);
    var p' :| Weights(exp, x, ks, scale, offset, i, p') && Averages(p', vs, d, row');
    WeightsOnce(exp, x, ks, scale, offset, i, p, p');
    hide Weights, Sum;
  }

  lemma WeightsOnce(exp: Exp, x: Vec, ks: seq<Vec>, scale: real, offset: Option<int>, i: nat, p: Vec, p': Vec)
    requires IsExp(exp) && ks != [] && (offset.None? || offset.value >= 0)
    requires forall j :: 0 <= j < |ks| ==> |ks[j]| == |x|
    requires Weights(exp, x, ks, scale, offset, i, p) && Weights(exp, x, ks, scale, offset, i, p')
    ensures p == p'
  {
    hide Likeness, Sum, IsExp;
    var e := exp(Likeness(x, ks[0], scale));
    assert e > 0.0 by { ExpPositive(exp, Likeness(x, ks[0], scale)); }
    forall j | 0 <= j < |p|
      ensures p[j] * p'[0] == p'[j] * p[0]
    {
      if p[j] > 0.0 {
        Crossing(p[j], p[0], p'[j], p'[0], e, exp(Likeness(x, ks[j], scale)));
      } else {
        assert p[j] == p'[j] == 0.0;
      }
    }
    hide *;
    SumsCross(p, p', p'[0], p[0]);
    SameWeights(p, p');
  }

  lemma ExpPositive(exp: Exp, x: real)
    requires IsExp(exp)
    ensures exp(x) > 0.0
  {
  }

  lemma Crossing(a: real, a0: real, b: real, b0: real, e: real, f: real)
    requires e > 0.0 && a * e == a0 * f && b * e == b0 * f
    ensures a * b0 == b * a0
  {
    assert (a * b0) * e == (b * a0) * e by {
      assert (a * b0) * e == (a * e) * b0;
      assert (b * a0) * e == (b * e) * a0;
      assert (a0 * f) * b0 == (b0 * f) * a0;
    }
    SameFactor(a * b0, b * a0, e);
  }

  lemma {:induction false} SumsCross(p: Vec, p': Vec, s: real, t: real)
    requires |p| == |p'| && forall j :: 0 <= j < |p| ==> p[j] * s == p'[j] * t
    ensures Sum(p) * s == Sum(p') * t
    decreases |p|
  {
    if p != [] {
      SumsCross(p[..|p| - 1], p'[..|p| - 1], s, t);
      var a, b := Sum(p[..|p| - 1]), Sum(p'[..|p| - 1]);
      assert (a + p[|p| - 1]) * s == a * s + p[|p| - 1] * s;
      assert (b + p'[|p| - 1]) * t == b * t + p'[|p| - 1] * t;
    }
  }

  lemma SameWeights(p: Vec, p': Vec)
    requires |p| == |p'| && p != [] && p[0] > 0.0 && p'[0] == p[0]
    requires forall j :: 0 <= j < |p| ==> p[j] * p'[0] == p'[j] * p[0]
    ensures p == p'
  {
    forall j | 0 <= j < |p|
      ensures p[j] == p'[j]
    {
      SameFactor(p[j], p'[j], p[0]);
    }
  }

  // ---- shift invariance

  lemma {:induction false} MassShift(exp: Exp, x: seq<Score>, m: real, m': real)
    requires IsExp(exp)
    ensures Mass(exp, x, m') == Mass(exp, x, m) * exp(m - m')
    decreases |x|
  {
    if x != [] {
      MassShift(exp, x[..|x| - 1], m, m');
      PowerShift(exp, x[|x| - 1], m, m');
    }
  }

  lemma PowerShift(exp: Exp, s: Score, m: real, m': real)
    requires IsExp(exp)
    ensures Power(exp, s, m') == Power(exp, s, m) * exp(m - m')
  {
    if s.Fin? {
      assert Plus(s.v - m, m - m') == s.v - m';
    }
  }

  lemma {:induction false} PullShift(exp: Exp, x: seq<Score>, vs: seq<Vec>, m: real, m': real, c: nat)
    requires IsExp(exp) && |x| == |vs| && forall j :: 0 <= j < |vs| ==> c < |vs[j]|
    ensures Pull(exp, x, vs, m', c) == Pull(exp, x, vs, m, c) * exp(m - m')
    decreases |x|
  {
    if x != [] {
      PullShift(exp, x[..|x| - 1], vs[..|vs| - 1], m, m', c);
      PowerShift(exp, x[|x| - 1], m, m');
      var a, b := Pull(exp, x[..|x| - 1], vs[..|vs| - 1], m, c), Power(exp, x[|x| - 1], m);
      var e, v := exp(m - m'), vs[|vs| - 1][c];
      assert a * e + b * e * v == (a + b * v) * e;
    }
  }

  /** Masses and pulls of consecutive tiles add up. */
  lemma {:induction false} MassAdds(exp: Exp, x: seq<Score>, y: seq<Score>, m: real)
    ensures Mass(exp, x + y, m) == Mass(exp, x, m) + Mass(exp, y, m)
    decreases |y|
  {
    if y == [] {
      assert x + y == x;
    } else {
      MassAdds(exp, x, y[..|y| - 1], m);
      assert (x + y)[..|x + y| - 1] == x + y[..|y| - 1];
    }
  }

  lemma {:induction false} PullAdds(exp: Exp, x: seq<Score>, y: seq<Score>, vs: seq<Vec>, ws: seq<Vec>, m: real, c: nat)
    requires |x| == |vs| && |y| == |ws|
    requires (forall j :: 0 <= j < |vs| ==> c < |vs[j]|) && (forall j :: 0 <= j < |ws| ==> c < |ws[j]|)
    ensures Pull(exp, x + y, vs + ws, m, c) == Pull(exp, x, vs, m, c) + Pull(exp, y, ws, m, c)
    decreases |y|
  {
    if y == [] {
      assert x + y == x && vs + ws == vs;
    } else {
      PullAdds(exp, x, y[..|y| - 1], vs, ws[..|ws| - 1], m, c);
      assert (x + y)[..|x + y| - 1] == x + y[..|y| - 1];
      assert (vs + ws)[..|vs + ws| - 1] == vs + ws[..|ws| - 1];
    }
  }

  lemma {:induction false} MaxAdds(x: seq<Score>, y: seq<Score>)
    ensures MaxScore(x + y) == MaxOf(MaxScore(x), MaxScore(y))
    decreases |y|
  {
    if y == [] {
      assert x + y == x;
    } else {
      MaxAdds(x, y[..|y| - 1]);
      assert (x + y)[..|x + y| - 1] == x + y[..|y| - 1];
    }
  }

  // ---- the naive row is pull over mass, against any reference

  lemma {:induction false} CombineIsPull(exp: Exp, x: seq<Score>, vs: seq<Vec>, m: real, z: real, p: Vec, c: nat)
    requires |x| == |vs| && (forall j :: 0 <= j < |vs| ==> c < |vs[j]|) && Shares(exp, x, m, z, p)
    ensures Combine(p, vs, c) * z == Pull(exp, x, vs, m, c)
    decreases |x|
  {
    if x != [] {
      var last := |x| - 1;
      assert Shares(exp, x[..last], m, z, p[..last]) && p[last] * z == Power(exp, x[last], m);
      hide Shares, Power;
      CombineIsPull(exp, x[..last], vs[..last], m, z, p[..last], c);
      Factor(Combine(p[..last], vs[..last], c), p[last], vs[last][c], z);
    }
  }

  lemma Factor(a: real, b: real, v: real, z: real)
    ensures (a + b * v) * z == a * z + (b * z) * v
  {
  }

  // ---- one row's running statistics

  datatype Row = Row(m: Score, l: real, acc: Vec)

  function Fresh(d: nat): Row { Row(NegInf, 0.0, seq(d, _ => 0.0)) }

  function Safe(m: Score): real { if m.Fin? then m.v else 0.0 }

  /** What one tile of keys does to one row. */
  function Update(exp: Exp, r: Row, s: seq<Score>, vs: seq<Vec>): (r': Row)
    requires |s| == |vs| && forall j :: 0 <= j < |vs| ==> |vs[j]| == |r.acc|
    ensures |r'.acc| == |r.acc|
  {
    var newM := MaxOf(r.m, MaxScore(s));
    var safe := Safe(newM);
    var alpha := Power(exp, r.m, safe);
    Row(newM, r.l * alpha + Mass(exp, s, safe),
        seq(|r.acc|, c requires 0 <= c < |r.acc| => r.acc[c] * alpha + Pull(exp, s, vs, safe, c)))
  }

  /** The statistics stand for the softmax sums over the keys seen so far. */
  ghost predicate Stands(exp: Exp, r: Row, x: seq<Score>, vs: seq<Vec>)
    requires |x| == |vs| && forall j :: 0 <= j < |vs| ==> |vs[j]| == |r.acc|
  {
    && r.m == MaxScore(x)
    && r.l == Mass(exp, x, Safe(r.m))
    && forall c :: 0 <= c < |r.acc| ==> r.acc[c] == Pull(exp, x, vs, Safe(r.m), c)
  }

  /** A fully masked row has no pull either. */
  lemma {:induction false} NoPull(exp: Exp, x: seq<Score>, vs: seq<Vec>, m: real, c: nat)
    requires |x| == |vs| && (forall j :: 0 <= j < |vs| ==> c < |vs[j]|) && MaxScore(x).NegInf?
    ensures Pull(exp, x, vs, m, c) == 0.0
    decreases |x|
  {
    if x != [] {
      NoPull(exp, x[..|x| - 1], vs[..|vs| - 1], m, c);
    }
  }

  /** Rescaling the old sums to the new maximum. */
  lemma MassRescaled(exp: Exp, x: seq<Score>, newM: Score)
    requires IsExp(exp) && (MaxScore(x).Fin? ==> newM.Fin?)
    ensures Mass(exp, x, Safe(MaxScore(x))) * Power(exp, MaxScore(x), Safe(newM)) == Mass(exp, x, Safe(newM))
  {
    MassPositive(exp, x, Safe(newM));
    if MaxScore(x).Fin? {
      MassShift(exp, x, MaxScore(x).v, Safe(newM));
    }
    hide Mass, MaxScore;
  }

  lemma PullRescaled(exp: Exp, x: seq<Score>, vs: seq<Vec>, newM: Score, c: nat)
    requires IsExp(exp) && |x| == |vs| && forall j :: 0 <= j < |vs| ==> c < |vs[j]|
    requires MaxScore(x).Fin? ==> newM.Fin?
    ensures Pull(exp, x, vs, Safe(MaxScore(x)), c) * Power(exp, MaxScore(x), Safe(newM)) ==
      Pull(exp, x, vs, Safe(newM), c)
  {
    if MaxScore(x).Fin? {
      PullShift(exp, x, vs, MaxScore(x).v, Safe(newM), c);
    } else {
      NoPull(exp, x, vs, Safe(newM), c);
    }
    hide Pull, MaxScore;
  }

  /** A tile's update keeps the statistics standing for what has been seen. */
  lemma UpdateStands(exp: Exp, r: Row, x: seq<Score>, vs: seq<Vec>, s: seq<Score>, ws: seq<Vec>)
    requires IsExp(exp) && |x| == |vs| && |s| == |ws|
    requires (forall j :: 0 <= j < |vs| ==> |vs[j]| == |r.acc|) && (forall j :: 0 <= j < |ws| ==> |ws[j]| == |r.acc|)
    requires Stands(exp, r, x, vs)
    ensures Stands(exp, Update(exp, r, s, ws), x + s, vs + ws)
  {
    hide IsExp, Mass, Pull, MaxScore, Power, Safe;
    MaxAdds(x, s);
    var newM := MaxOf(r.m, MaxScore(s));
    var r' := Update(exp, r, s, ws);
    MassRescaled(exp, x, newM);
    MassAdds(exp, x, s, Safe(newM));
    forall c | 0 <= c < |r.acc|
      ensures r'.acc[c] == Pull(exp, x + s, vs + ws, Safe(newM), c)
    {
      PullRescaled(exp, x, vs, newM, c);
      PullAdds(exp, x, s, vs, ws, Safe(newM), c);
    }
  }

  /** The final division gives the naive row. */
  lemma Finish(exp: Exp, r: Row, x: seq<Score>, vs: seq<Vec>, c: nat)
    requires IsExp(exp) && |x| == |vs| && (forall j :: 0 <= j < |vs| ==> |vs[j]| == |r.acc|)
    requires Stands(exp, r, x, vs) && MaxScore(x).Fin? && c < |r.acc|
    ensures r.l > 0.0
    ensures r.acc[c] / r.l == Combine(Softmax(exp, x), vs, c)
  {
    FinishIs(exp, r, x, vs, c);
    hide *;
    SoftmaxShares(exp, x);
    var m := MaxScore(x).v;
    var p, z := Softmax(exp, x), Mass(exp, x, m);
    CombineIsPull(exp, x, vs, m, z, p, c);
    Quotient(Combine(p, vs, c), z, Pull(exp, x, vs, m, c));
  }

  lemma FinishIs(exp: Exp, r: Row, x: seq<Score>, vs: seq<Vec>, c: nat)
    requires |x| == |vs| && (forall j :: 0 <= j < |vs| ==> |vs[j]| == |r.acc|)
    requires Stands(exp, r, x, vs) && MaxScore(x).Fin? && c < |r.acc|
    ensures r.l == Mass(exp, x, MaxScore(x).v) && r.acc[c] == Pull(exp, x, vs, MaxScore(x).v, c)
  {
    hide Mass, Pull, MaxScore;
  }

  lemma Quotient(a: real, z: real, b: real)
    requires z != 0.0 && a * z == b
    ensures b / z == a
  {
  }

  // ---- the tiled form

  lemma FreshStands(exp: Exp, d: nat)
    ensures Stands(exp, Fresh(d), [], [])
  {
  }

  lemma ScoresAppend(q: seq<Vec>, ks: seq<Vec>, scale: real, offset: Option<int>, i: nat, mid: nat, end: nat)
    requires i < |q| && mid <= end <= |ks| && forall j :: 0 <= j < |ks| ==> |ks[j]| == |q[i]|
    ensures Scores(q, ks, scale, offset, i, 0, mid) + Scores(q, ks, scale, offset, i, mid, end) ==
      Scores(q, ks, scale, offset, i, 0, end)
  {
    hide ScoreOf;
  }

  /** Row i's statistics after keys 0..k. */
  ghost predicate RowAt(exp: Exp, q: seq<Vec>, ks: seq<Vec>, vs: seq<Vec>, scale: real, offset: Option<int>, d: nat,
                        i: nat, k: nat, r: Row)
    requires Shapes(q, ks, vs, d) && i < |q| && k <= |ks|
  {
    |r.acc| == d && Stands(exp, r, Scores(q, ks, scale, offset, i, 0, k), vs[..k])
  }

  lemma RowAdvances(exp: Exp, q: seq<Vec>, ks: seq<Vec>, vs: seq<Vec>, scale: real, offset: Option<int>, d: nat, i: nat,
                    k: nat, k1: nat, r: Row)
    requires IsExp(exp) && Shapes(q, ks, vs, d) && i < |q| && k <= k1 <= |ks|
    requires RowAt(exp, q, ks, vs, scale, offset, d, i, k, r)
    ensures RowAt(exp, q, ks, vs, scale, offset, d, i, k1,
      Update(exp, r, Scores(q, ks, scale, offset, i, k, k1), vs[k..k1]))
  {
    hide Stands, Update, ScoreOf, IsExp;
    ScoresAppend(q, ks, scale, offset, i, k, k1);
    assert vs[..k] + vs[k..k1] == vs[..k1];
    UpdateStands(exp, r, Scores(q, ks, scale, offset, i, 0, k), vs[..k], Scores(q, ks, scale, offset, i, k, k1),
      vs[k..k1]);
    UpdateSize(exp, r, Scores(q, ks, scale, offset, i, k, k1), vs[k..k1]);
  }

  lemma UpdateSize(exp: Exp, r: Row, s: seq<Score>, vs: seq<Vec>)
    requires |s| == |vs| && forall j :: 0 <= j < |vs| ==> |vs[j]| == |r.acc|
    ensures |Update(exp, r, s, vs).acc| == |r.acc|
  {
  }

  /** Keys in the row's future add nothing. */
  lemma {:induction false} FutureAddsNothing(exp: Exp, x: seq<Score>, vs: seq<Vec>, m: real, n: nat, c: nat)
    requires n <= |x| == |vs| && forall j :: 0 <= j < |vs| ==> c < |vs[j]|
    requires forall j :: n <= j < |x| ==> x[j].NegInf?
    ensures MaxScore(x) == MaxScore(x[..n]) && Mass(exp, x, m) == Mass(exp, x[..n], m)
    ensures Pull(exp, x, vs, m, c) == Pull(exp, x[..n], vs[..n], m, c)
    decreases |x|
  {
    if n == |x| {
      assert x[..n] == x && vs[..n] == vs;
    } else {
      var last := |x| - 1;
      FutureAddsNothing(exp, x[..last], vs[..last], m, n, c);
      assert x[..last][..n] == x[..n] && vs[..last][..n] == vs[..n];
    }
  }

  /** The early exit drops fully masked tiles only. */
  lemma MaskedTilesDropped(exp: Exp, q: seq<Vec>, ks: seq<Vec>, vs: seq<Vec>, scale: real, offset: Option<int>,
                           d: nat, i: nat, k: nat, r: Row)
    requires Shapes(q, ks, vs, d) && i < |q| && k <= |ks| && d > 0
    requires RowAt(exp, q, ks, vs, scale, offset, d, i, k, r)
    requires k == |ks| || (offset.Some? && k > i + offset.value)
    ensures RowAt(exp, q, ks, vs, scale, offset, d, i, |ks|, r)
  {
    var x := Scores(q, ks, scale, offset, i, 0, |ks|);
    assert x[..k] == Scores(q, ks, scale, offset, i, 0, k);
    assert vs[..|ks|] == vs;
    hide Mass, Pull, MaxScore, Dot;
    forall c | 0 <= c < d
      ensures MaxScore(x) == MaxScore(x[..k]) && Mass(exp, x, Safe(r.m)) == Mass(exp, x[..k], Safe(r.m))
      ensures Pull(exp, x, vs, Safe(r.m), c) == Pull(exp, x[..k], vs[..k], Safe(r.m), c)
    {
      FutureAddsNothing(exp, x, vs, Safe(r.m), k, c);
    }
    FutureAddsNothing(exp, x, vs, Safe(r.m), k, 0);
  }

  /** acc / denom, with the guard for rows that saw no key. */
  function Divide(r: Row): Vec {
    var denom := if r.l > 0.0 then r.l else 1.0;
    seq(|r.acc|, c requires 0 <= c < |r.acc| => r.acc[c] / denom)
  }

  lemma DivideIsNaive(exp: Exp, q: seq<Vec>, ks: seq<Vec>, vs: seq<Vec>, scale: real, offset: Option<int>, d: nat,
                      i: nat, r: Row)
    requires IsExp(exp) && Shapes(q, ks, vs, d) && Causal(ks, offset) && i < |q|
    requires RowAt(exp, q, ks, vs, scale, offset, d, i, |ks|, r)
    ensures Divide(r) == NaiveRow(exp, q, ks, vs, scale, offset, d, i)
  {
    SeesFirst(q, ks, scale, offset, i, |ks|);
    assert vs[..|ks|] == vs;
    hide Stands, Scores, IsExp, Combine, Softmax;
    forall c | 0 <= c < d
      ensures Divide(r)[c] == Combine(Softmax(exp, Scores(q, ks, scale, offset, i, 0, |ks|)), vs, c)
    {
      Finish(exp, r, Scores(q, ks, scale, offset, i, 0, |ks|), vs, c);
    }
  }

  /** Flash attention: query tiles outside, key tiles inside, running statistics per row. */
  method FlashAttention(exp: Exp, q: seq<Vec>, ks: seq<Vec>, vs: seq<Vec>, scale: real, offset: Option<int>, d: nat,
                        blockQ: nat, blockK: nat)
    returns (out: seq<Vec>)
    requires IsExp(exp) && Shapes(q, ks, vs, d) && d > 0 && Causal(ks, offset) && blockQ >= 1 && blockK >= 1
    ensures out == NaiveAttention(exp, q, ks, vs, scale, offset, d)
    ensures AllAttend(exp, q, ks, vs, scale, offset, d, out)
  {
    hide *;
    out := [];
    ShapesAre(q, ks, vs, d);
    var q0 := 0;
    while q0 < |q|
      invariant q0 <= |q| && |out| == q0
      invariant forall i :: 0 <= i < q0 ==> out[i] == NaiveRow(exp, q, ks, vs, scale, offset, d, i)
    {
      var q1 := if q0 + blockQ < |q| then q0 + blockQ else |q|;
      var rows := FlashTile(exp, q, ks, vs, scale, offset, d, blockK, q0, q1);
      var tile: seq<Vec> := seq(q1 - q0, a requires 0 <= a < |rows| => Divide(rows[a]));
      forall a | 0 <= a < q1 - q0
        ensures tile[a] == NaiveRow(exp, q, ks, vs, scale, offset, d, q0 + a)
      {
        DivideIsNaive(exp, q, ks, vs, scale, offset, d, q0 + a, rows[a]);
      }
      out := out + tile;
      q0 := q1;
    }
    NaiveIs(exp, q, ks, vs, scale, offset, d, out);
    NaiveAllAttend(exp, q, ks, vs, scale, offset, d);
  }

  lemma ShapesAre(q: seq<Vec>, ks: seq<Vec>, vs: seq<Vec>, d: nat)
    requires Shapes(q, ks, vs, d)
    ensures |ks| == |vs|
    ensures forall i, j :: 0 <= i < |q| && 0 <= j < |ks| ==> |ks[j]| == |q[i]|
    ensures forall j :: 0 <= j < |vs| ==> |vs[j]| == d
  {
  }

  lemma NaiveIs(exp: Exp, q: seq<Vec>, ks: seq<Vec>, vs: seq<Vec>, scale: real, offset: Option<int>, d: nat,
                out: seq<Vec>)
    requires IsExp(exp) && Shapes(q, ks, vs, d) && Causal(ks, offset) && |out| == |q|
    requires forall i :: 0 <= i < |q| ==> out[i] == NaiveRow(exp, q, ks, vs, scale, offset, d, i)
    ensures out == NaiveAttention(exp, q, ks, vs, scale, offset, d)
  {
    hide NaiveRow, IsExp, Shapes, Causal;
  }

  /** The key loop for queries q0..q1. */
  method FlashTile(exp: Exp, q: seq<Vec>, ks: seq<Vec>, vs: seq<Vec>, scale: real, offset: Option<int>, d: nat,
                   blockK: nat, q0: nat, q1: nat) returns (rows: seq<Row>)
    requires IsExp(exp) && Shapes(q, ks, vs, d) && d > 0 && blockK >= 1 && q0 < q1 <= |q|
    ensures |rows| == q1 - q0
    ensures forall a :: 0 <= a < |rows| ==> RowAt(exp, q, ks, vs, scale, offset, d, q0 + a, |ks|, rows[a])
  {
    hide *;
    ShapesAre(q, ks, vs, d);
    rows := seq(q1 - q0, _ => Fresh(d));
    forall a | 0 <= a < |rows|
      ensures RowAt(exp, q, ks, vs, scale, offset, d, q0 + a, 0, rows[a])
    {
      FreshRow(exp, q, ks, vs, scale, offset, d, q0 + a);
    }
    var k0 := 0;
    while k0 < |ks|
      invariant k0 <= |ks| && |rows| == q1 - q0
      invariant forall a :: 0 <= a < |rows| ==> RowAt(exp, q, ks, vs, scale, offset, d, q0 + a, k0, rows[a])
    {
      var k1 := if k0 + blockK < |ks| then k0 + blockK else |ks|;
      if offset.Some? && k0 > (q1 - 1) + offset.value {
        break; // the entire tile is masked out
      }
      RowSizes(exp, q, ks, vs, scale, offset, d, q0, k0, rows);
      var vt := vs[k0..k1];
      var next := seq(|rows|, a requires 0 <= a < |rows| && q0 + a < |q| && |rows[a].acc| == d
        && k0 <= k1 <= |ks| == |vs|
                                && vt == vs[k0..k1] && (forall j :: 0 <= j < |vs| ==> |vs[j]| == d)
                                && (forall j :: 0 <= j < |ks| ==> |ks[j]| == |q[q0 + a]|) =>
        Update(exp, rows[a], Scores(q, ks, scale, offset, q0 + a, k0, k1), vt));
      forall a | 0 <= a < |rows|
        ensures RowAt(exp, q, ks, vs, scale, offset, d, q0 + a, k1, next[a])
      {
        RowAdvances(exp, q, ks, vs, scale, offset, d, q0 + a, k0, k1, rows[a]);
      }
      rows := next;
      k0 := k1;
    }
    forall a | 0 <= a < |rows|
      ensures RowAt(exp, q, ks, vs, scale, offset, d, q0 + a, |ks|, rows[a])
    {
      MaskedTilesDropped(exp, q, ks, vs, scale, offset, d, q0 + a, k0, rows[a]);
    }
  }

  lemma FreshRow(exp: Exp, q: seq<Vec>, ks: seq<Vec>, vs: seq<Vec>, scale: real, offset: Option<int>, d: nat, i: nat)
    requires Shapes(q, ks, vs, d) && i < |q|
    ensures RowAt(exp, q, ks, vs, scale, offset, d, i, 0, Fresh(d))
  {
    assert Scores(q, ks, scale, offset, i, 0, 0) == [] && vs[..0] == [];
    FreshStands(exp, d);
  }

  lemma RowSizes(exp: Exp, q: seq<Vec>, ks: seq<Vec>, vs: seq<Vec>, scale: real, offset: Option<int>, d: nat, q0: nat,
                 k: nat, rows: seq<Row>)
    requires Shapes(q, ks, vs, d) && q0 + |rows| <= |q| && k <= |ks|
    requires forall a :: 0 <= a < |rows| ==> RowAt(exp, q, ks, vs, scale, offset, d, q0 + a, k, rows[a])
    ensures forall a :: 0 <= a < |rows| ==> |rows[a].acc| == d
  {
    hide Stands, Scores;
  }

  // ---- several heads

  /** Head h of a (tokens, heads, dim) tensor. */
  function Head(x: seq<seq<Vec>>, h: nat): (y: seq<Vec>)
    requires forall i :: 0 <= i < |x| ==> h < |x[i]|
    ensures |y| == |x| && forall i :: 0 <= i < |x| ==> y[i] == x[i][h]
  {
    seq(|x|, i requires 0 <= i < |x| => x[i][h])
  }

  ghost predicate HeadShapes(q: seq<seq<Vec>>, ks: seq<seq<Vec>>, vs: seq<seq<Vec>>, heads: nat, d: nat) {
    && (forall i :: 0 <= i < |q| ==> |q[i]| == heads)
    && |ks| == |vs| && (forall j :: 0 <= j < |ks| ==> |ks[j]| == heads && |vs[j]| == heads)
    && (forall h: nat :: h < heads ==> Shapes(Head(q, h), Head(ks, h), Head(vs, h), d))
  }

  /** What token i's heads are in naive attention, head by head. */
  ghost predicate IsNaive(exp: Exp, q: seq<seq<Vec>>, ks: seq<seq<Vec>>, vs: seq<seq<Vec>>, scale: real,
                          offset: Option<int>, heads: nat, d: nat, out: seq<seq<Vec>>)
    requires IsExp(exp) && HeadShapes(q, ks, vs, heads, d)
    requires forall h: nat :: h < heads ==> Causal(Head(ks, h), offset)
  {
    && |out| == |q|
    && (forall i :: 0 <= i < |q| ==> |out[i]| == heads)
    && (forall h: nat :: h < heads ==>
          Head(out, h) == NaiveAttention(exp, Head(q, h), Head(ks, h), Head(vs, h), scale, offset, d))
  }

  /** Another head beside those there. */
  function Beside(out: seq<seq<Vec>>, head: seq<Vec>): (r: seq<seq<Vec>>)
    requires |head| == |out|
    ensures |r| == |out| && forall i :: 0 <= i < |out| ==> r[i] == out[i] + [head[i]]
  {
    seq(|out|, i requires 0 <= i < |out| => out[i] + [head[i]])
  }

  lemma BesideHeads(out: seq<seq<Vec>>, head: seq<Vec>, n: nat)
    requires |head| == |out| && forall i :: 0 <= i < |out| ==> |out[i]| == n
    ensures var r := Beside(out, head);
      && (forall i :: 0 <= i < |r| ==> |r[i]| == n + 1)
      && (forall h: nat :: h < n ==> Head(r, h) == Head(out, h)) && Head(r, n) == head
  {
  }

  /** Flash attention for all heads is naive attention for each of them, whatever the tiling. */
  method FlashHeads(exp: Exp, q: seq<seq<Vec>>, ks: seq<seq<Vec>>, vs: seq<seq<Vec>>, scale: real, offset: Option<int>,
                    heads: nat, d: nat, blockQ: nat, blockK: nat) returns (out: seq<seq<Vec>>)
    requires IsExp(exp) && HeadShapes(q, ks, vs, heads, d) && d > 0 && blockQ >= 1 && blockK >= 1
    requires forall h: nat :: h < heads ==> Causal(Head(ks, h), offset)
    ensures IsNaive(exp, q, ks, vs, scale, offset, heads, d, out)
    ensures forall h: nat :: h < heads ==>
      AllAttend(exp, Head(q, h), Head(ks, h), Head(vs, h), scale, offset, d, Head(out, h))
  {
    hide NaiveAttention, Shapes, Causal, IsExp, AllAttend;
    out := seq(|q|, _ => []);
    for n := 0 to heads
      invariant |out| == |q| && forall i :: 0 <= i < |q| ==> |out[i]| == n
      invariant forall h: nat :: h < n ==>
        && Head(out, h) == NaiveAttention(exp, Head(q, h), Head(ks, h), Head(vs, h), scale, offset, d)
        && AllAttend(exp, Head(q, h), Head(ks, h), Head(vs, h), scale, offset, d, Head(out, h))
    {
      var head := FlashAttention(exp, Head(q, n), Head(ks, n), Head(vs, n), scale, offset, d, blockQ, blockK);
      NaiveSize(exp, Head(q, n), Head(ks, n), Head(vs, n), scale, offset, d);
      BesideHeads(out, head, n);
      out := Beside(out, head);
    }
  }

  lemma NaiveSize(exp: Exp, q: seq<Vec>, ks: seq<Vec>, vs: seq<Vec>, scale: real, offset: Option<int>, d: nat)
    requires IsExp(exp) && Shapes(q, ks, vs, d) && Causal(ks, offset)
    ensures |NaiveAttention(exp, q, ks, vs, scale, offset, d)| == |q|
  {
    hide Scores, Softmax, Combine, IsExp;
  }
}
