/** Sharded matrix products against unsharded ones, in exact arithmetic. */
module TensorParallel {
  import opened Options

  type Row = seq<real>
  type Matrix = seq<Row>

  ghost predicate Shape(x: Matrix, rows: nat, cols: nat) {
    |x| == rows && forall i :: 0 <= i < |x| ==> |x[i]| == cols
  }

  /** The dot product of a row with column j of w, over the first n entries. */
  function DotColumn(x: Row, w: Matrix, j: nat, n: nat): real
    requires n <= |x| && n <= |w| && forall k :: 0 <= k < |w| ==> j < |w[k]|
  {
    if n == 0 then 0.0 else DotColumn(x, w, j, n - 1) + x[n - 1] * w[n - 1][j]
  }

  function MatMul(x: Matrix, w: Matrix, cols: nat): (y: Matrix)
    requires (forall i :: 0 <= i < |x| ==> |x[i]| == |w|) && forall k :: 0 <= k < |w| ==> |w[k]| == cols
    ensures |y| == |x| && forall i :: 0 <= i < |y| ==> |y[i]| == cols
  {
    seq(|x|, i requires 0 <= i < |x| => seq(cols, j requires 0 <= j < cols => DotColumn(x[i], w, j, |w|)))
  }

  // ---- what the product is

  ghost predicate Fits(x: Matrix, w: Matrix, cols: nat) {
    (forall i :: 0 <= i < |x| ==> |x[i]| == |w|) && forall k :: 0 <= k < |w| ==> |w[k]| == cols
  }

  /** The k-th unit row. */
  ghost predicate IsUnit(x: Row, k: nat) {
    k < |x| && x[k] == 1.0 && forall a :: 0 <= a < |x| && a != k ==> x[a] == 0.0
  }

  lemma {:induction false} UnitDot(x: Row, w: Matrix, j: nat, n: nat, k: nat)
    requires IsUnit(x, k) && n <= |x| == |w| && forall a :: 0 <= a < |w| ==> j < |w[a]|
    ensures DotColumn(x, w, j, n) == if k < n then w[k][j] else 0.0
    decreases n
  {
    if n > 0 {
      UnitDot(x, w, j, n - 1, k);
    }
  }

  /** A unit row selects a row of w. */
  lemma UnitSelects(x: Matrix, w: Matrix, cols: nat, i: nat, k: nat)
    requires Fits(x, w, cols) && i < |x| && IsUnit(x[i], k)
    ensures MatMul(x, w, cols)[i] == w[k]
  {
    var y := MatMul(x, w, cols);
    hide DotColumn, IsUnit;
    assert k < |w| by { UnitInside(x[i], k); }
    forall j | 0 <= j < cols
      ensures y[i][j] == w[k][j]
    {
      UnitDot(x[i], w, j, |w|, k);
    }
  }

  lemma UnitInside(x: Row, k: nat)
    requires IsUnit(x, k)
    ensures k < |x|
  {
  }

  /** z is a times x plus b times y, entry by entry. */
  ghost predicate Combines(a: real, x: Row, b: real, y: Row, z: Row) {
    |x| == |y| == |z| && forall k :: 0 <= k < |z| ==> z[k] == a * x[k] + b * y[k]
  }

  lemma {:induction false} LinearDot(a: real, x: Row, b: real, y: Row, z: Row, w: Matrix, j: nat, n: nat)
    requires Combines(a, x, b, y, z) && n <= |z| == |w| && forall k :: 0 <= k < |w| ==> j < |w[k]|
    ensures DotColumn(z, w, j, n) == a * DotColumn(x, w, j, n) + b * DotColumn(y, w, j, n)
    decreases n
  {
    if n > 0 {
      LinearDot(a, x, b, y, z, w, j, n - 1);
      Distributes(a, x[n - 1], b, y[n - 1], w[n - 1][j], DotColumn(x, w, j, n - 1), DotColumn(y, w, j, n - 1));
    }
  }

  lemma Distributes(a: real, x: real, b: real, y: real, w: real, p: real, q: real)
    ensures a * p + b * q + (a * x + b * y) * w == a * (p + x * w) + b * (q + y * w)
  {
  }

  /** The product is linear in the left factor, row by row; with UnitSelects that determines it. */
  lemma Linear(a: real, x: Matrix, b: real, y: Matrix, z: Matrix, w: Matrix, cols: nat, i: nat)
    requires Fits(x, w, cols) && Fits(y, w, cols) && Fits(z, w, cols) && i < |x| && i < |y| && i < |z|
    requires Combines(a, x[i], b, y[i], z[i])
    ensures Combines(a, MatMul(x, w, cols)[i], b, MatMul(y, w, cols)[i], MatMul(z, w, cols)[i])
  {
    hide DotColumn;
    forall j | 0 <= j < cols
      ensures MatMul(z, w, cols)[i][j] == a * MatMul(x, w, cols)[i][j] + b * MatMul(y, w, cols)[i][j]
    {
      LinearDot(a, x[i], b, y[i], z[i], w, j, |w|);
    }
  }

  /** f takes rows of length n to rows of length cols and is linear. */
  ghost predicate IsLinear(f: Row -> Row, n: nat, cols: nat) {
    && (forall x :: |x| == n ==> |f(x)| == cols)
    && forall a, x, b, y, z :: |z| == n && Combines(a, x, b, y, z) ==> Combines(a, f(x), b, f(y), f(z))
  }

  /** f takes each unit row to the row of w. */
  ghost predicate HasRows(f: Row -> Row, w: Matrix) {
    forall x, k: nat :: |x| == |w| && IsUnit(x, k) ==> f(x) == w[k]
  }

  /** x with zeros from entry n on. */
  function Cut(x: Row, n: nat): (y: Row)
    ensures |y| == |x|
  {
    seq(|x|, k requires 0 <= k < |x| => if k < n then x[k] else 0.0)
  }

  function Unit(n: nat, k: nat): (x: Row)
    ensures |x| == n
  {
    seq(n, a requires 0 <= a < n => if a == k then 1.0 else 0.0)
  }

  /** The product is the only linear map with those rows. */
  lemma {:induction false} OnlyProduct(f: Row -> Row, w: Matrix, cols: nat, x: Row, n: nat)
    requires |x| == |w| && n <= |w| && (forall k :: 0 <= k < |w| ==> |w[k]| == cols)
    requires IsLinear(f, |w|, cols) && HasRows(f, w)
    ensures f(Cut(x, n)) == MatMul([Cut(x, n)], w, cols)[0]
    decreases n
  {
    hide MatMul;
    var z := Cut(x, n);
    if n == 0 {
      assert Combines(0.0, z, 0.0, z, z);
      Linear(0.0, [z], 0.0, [z], [z], w, cols, 0);
      Vanishes(f(z));
      Vanishes(MatMul([z], w, cols)[0]);
    } else {
      var y, u := Cut(x, n - 1), Unit(|x|, n - 1);
      OnlyProduct(f, w, cols, x, n - 1);
      assert IsUnit(u, n - 1);
      UnitSelects([u], w, cols, 0, n - 1);
      assert Combines(1.0, y, x[n - 1], u, z);
      Linear(1.0, [y], x[n - 1], [u], [z], w, cols, 0);
      SameCombination(1.0, f(y), x[n - 1], f(u), f(z), MatMul([z], w, cols)[0]);
    }
  }

  lemma SameCombination(a: real, x: Row, b: real, y: Row, z: Row, z': Row)
    requires Combines(a, x, b, y, z) && Combines(a, x, b, y, z')
    ensures z == z'
  {
  }

  lemma Vanishes(z: Row)
    requires Combines(0.0, z, 0.0, z, z)
    ensures z == seq(|z|, _ => 0.0)
  {
  }

  /** Whole rows: nothing is cut. */
  lemma OnlyProductWhole(f: Row -> Row, w: Matrix, cols: nat, x: Row)
    requires |x| == |w| && (forall k :: 0 <= k < |w| ==> |w[k]| == cols)
    requires IsLinear(f, |w|, cols) && HasRows(f, w)
    ensures f(x) == MatMul([x], w, cols)[0]
  {
    OnlyProduct(f, w, cols, x, |x|);
    assert Cut(x, |x|) == x;
  }

  lemma RowByRow(x: Matrix, w: Matrix, cols: nat, i: nat)
    requires Fits(x, w, cols) && i < |x|
    ensures MatMul([x[i]], w, cols)[0] == MatMul(x, w, cols)[i]
  {
    hide DotColumn;
  }

  /** One row through both factors. */
  function Through(a: Matrix, mid: nat, b: Matrix, cols: nat): Row -> Row
    requires (forall k :: 0 <= k < |a| ==> |a[k]| == mid) && |b| == mid && forall k :: 0 <= k < |b| ==> |b[k]| == cols
  {
    x => if |x| == |a| then MatMul(MatMul([x], a, mid), b, cols)[0] else []
  }

  lemma ThroughIsLinear(a: Matrix, mid: nat, b: Matrix, cols: nat)
    requires (forall k :: 0 <= k < |a| ==> |a[k]| == mid) && |b| == mid && forall k :: 0 <= k < |b| ==> |b[k]| == cols
    ensures IsLinear(Through(a, mid, b, cols), |a|, cols)
  {
    hide MatMul;
    var f := Through(a, mid, b, cols);
    forall s, x, t, y, z | |z| == |a| && Combines(s, x, t, y, z)
      ensures Combines(s, f(x), t, f(y), f(z))
    {
      Linear(s, [x], t, [y], [z], a, mid, 0);
      Linear(s, MatMul([x], a, mid), t, MatMul([y], a, mid), MatMul([z], a, mid), b, cols, 0);
    }
  }

  lemma ThroughRows(a: Matrix, mid: nat, b: Matrix, cols: nat)
    requires (forall k :: 0 <= k < |a| ==> |a[k]| == mid) && |b| == mid && forall k :: 0 <= k < |b| ==> |b[k]| == cols
    ensures HasRows(Through(a, mid, b, cols), MatMul(a, b, cols))
  {
    hide MatMul;
    forall x, k: nat | |x| == |a| && IsUnit(x, k)
      ensures Through(a, mid, b, cols)(x) == MatMul(a, b, cols)[k]
    {
      UnitInside(x, k);
      UnitSelects([x], a, mid, 0, k);
      assert MatMul([x], a, mid) == [a[k]];
      RowByRow(a, b, cols, k);
    }
  }

  /** Multiplying through a and then b is multiplying by their product. */
  lemma Associative(x: Matrix, a: Matrix, mid: nat, b: Matrix, cols: nat)
    requires Fits(x, a, mid) && |b| == mid && forall k :: 0 <= k < |b| ==> |b[k]| == cols
    ensures MatMul(MatMul(x, a, mid), b, cols) == MatMul(x, MatMul(a, b, cols), cols)
  {
    hide MatMul;
    ThroughIsLinear(a, mid, b, cols);
    ThroughRows(a, mid, b, cols);
    forall i | 0 <= i < |x|
      ensures MatMul(MatMul(x, a, mid), b, cols)[i] == MatMul(x, MatMul(a, b, cols), cols)[i]
    {
      OnlyProductWhole(Through(a, mid, b, cols), MatMul(a, b, cols), cols, x[i]);
      RowByRow(x, a, mid, i);
      RowByRow(x, MatMul(a, b, cols), cols, i);
      assert MatMul([x[i]], a, mid) == [MatMul(x, a, mid)[i]];
      RowByRow(MatMul(x, a, mid), b, cols, i);
    }
  }

  // ---- shards

  /** a times b, as a running sum. */
  function Product(a: nat, b: nat): nat {
    if a == 0 then 0 else Product(a - 1, b) + b
  }

  lemma {:induction false} ProductIs(a: nat, b: nat)
    ensures Product(a, b) == a * b
  {
    if a > 0 {
      ProductIs(a - 1, b);
      assert a * b == (a - 1) * b + b;
    }
  }

  /** Slice r of width s of every row. */
  function ColumnShard(w: Matrix, s: nat, r: nat): (p: Matrix)
    requires forall k :: 0 <= k < |w| ==> Product(r, s) + s <= |w[k]|
    ensures |p| == |w| && forall k :: 0 <= k < |p| ==> |p[k]| == s
  {
    var from := Product(r, s);
    seq(|w|, k requires 0 <= k < |w| && from + s <= |w[k]| => w[k][from..from + s])
  }

  /** Rows r*s.. of height s. */
  function RowShard(w: Matrix, s: nat, r: nat): (p: Matrix)
    requires Product(r, s) + s <= |w|
    ensures |p| == s
  {
    var from := Product(r, s);
    w[Product(r, s)..Product(r, s) + s]
  }

  lemma {:induction false} ShardFits(r: nat, n: nat, s: nat)
    requires r < n
    ensures Product(r, s) + s == Product(r + 1, s) <= Product(n, s)
    decreases n
  {
    if r + 1 < n {
      ShardFits(r, n - 1, s);
    }
  }

  /** Splitting along an axis, or an error when the axis does not divide evenly. */
  function ShardColumns(w: Matrix, n: nat, cols: nat): (shards: Option<seq<Matrix>>)
    requires n > 0 && forall k :: 0 <= k < |w| ==> |w[k]| == cols
    ensures shards.Some? <==> cols % n == 0
    ensures shards.Some? ==> |shards.value| == n
  {
    if cols % n != 0 then None
    else
      Whole(cols, n);
      Some(seq(n, r requires 0 <= r < n => assert Product(r, cols / n) +
        cols / n <= cols by { ShardFits(r, n, cols / n); }
                                           ColumnShard(w, cols / n, r)))
  }

  function ShardRows(w: Matrix, n: nat): (shards: Option<seq<Matrix>>)
    requires n > 0
    ensures shards.Some? <==> |w| % n == 0
    ensures shards.Some? ==> |shards.value| == n
  {
    if |w| % n != 0 then None
    else
      Whole(|w|, n);
      Some(seq(n, r requires 0 <= r < n => assert Product(r, |w| / n) + |w| / n <= |w| by { ShardFits(r, n, |w| / n); }
                                           RowShard(w, |w| / n, r)))
  }

  lemma Whole(a: nat, n: nat)
    requires n > 0 && a % n == 0
    ensures Product(n, a / n) == a
  {
    ProductIs(n, a / n);
  }

  // ---- collectives

  function AddRow(a: Row, b: Row): (c: Row)
    requires |a| == |b|
    ensures |c| == |a|
  {
    seq(|a|, j requires 0 <= j < |a| => a[j] + b[j])
  }

  function Add(a: Matrix, b: Matrix, cols: nat): (c: Matrix)
    requires |a| == |b| && (forall i :: 0 <= i < |a| ==> |a[i]| == cols && |b[i]| == cols)
    ensures |c| == |a| && forall i :: 0 <= i < |c| ==> |c[i]| == cols
  {
    seq(|a|, i requires 0 <= i < |a| => AddRow(a[i], b[i]))
  }

  /** The element-wise sum of the first k partials. */
  function SumOf(partials: seq<Matrix>, k: nat, i: nat, j: nat): real
    requires k <= |partials| && forall r :: 0 <= r < |partials| ==> i < |partials[r]| && j < |partials[r][i]|
  {
    if k == 0 then 0.0 else SumOf(partials, k - 1, i, j) + partials[k - 1][i][j]
  }

  ghost predicate AllShaped(partials: seq<Matrix>, rows: nat, cols: nat) {
    forall r :: 0 <= r < |partials| ==> Shape(partials[r], rows, cols)
  }

  /** Sum across ranks, one partial after the other. */
  method AllReduce(partials: seq<Matrix>, rows: nat, cols: nat) returns (out: Matrix)
    requires partials != [] && AllShaped(partials, rows, cols)
    ensures Shape(out, rows, cols)
    ensures forall i, j :: 0 <= i < rows && 0 <= j < cols ==> out[i][j] == SumOf(partials, |partials|, i, j)
  {
    out := partials[0];
    var r := 1;
    while r < |partials|
      invariant 1 <= r <= |partials| && Shape(out, rows, cols)
      invariant forall i, j :: 0 <= i < rows && 0 <= j < cols ==> out[i][j] == SumOf(partials, r, i, j)
    {
      out := Add(out, partials[r], cols);
      r := r + 1;
    }
  }

  /** Columns side by side. */
  function Gather(shards: seq<Matrix>, rows: nat): (y: Matrix)
    requires forall r :: 0 <= r < |shards| ==> |shards[r]| == rows
    ensures |y| == rows
  {
    if shards == [] then seq(rows, _ => [])
    else
      var front, last := Gather(shards[..|shards| - 1], rows), shards[|shards| - 1];
      seq(rows, i requires 0 <= i < rows => front[i] + last[i])
  }

  // ---- column-parallel: no collective

  lemma {:induction false} ShardDot(x: Row, w: Matrix, s: nat, r: nat, j: nat, n: nat, cols: nat)
    requires n <= |x| && n <= |w| && j < s && Product(r, s) + s <= cols
    requires forall k :: 0 <= k < |w| ==> |w[k]| == cols
    ensures DotColumn(x, ColumnShard(w, s, r), j, n) == DotColumn(x, w, Product(r, s) + j, n)
    decreases n
  {
    hide Product;
    if n > 0 {
      ShardDot(x, w, s, r, j, n - 1, cols);
      assert ColumnShard(w, s, r)[n - 1][j] == w[n - 1][Product(r, s) + j];
    }
  }

  /** A rank's output is its slice of the whole output. */
  lemma RankOutput(x: Matrix, w: Matrix, s: nat, r: nat, cols: nat)
    requires (forall i :: 0 <= i < |x| ==> |x[i]| == |w|) && (forall k :: 0 <= k < |w| ==> |w[k]| == cols)
    requires Product(r, s) + s <= cols
    ensures MatMul(x, ColumnShard(w, s, r), s) == ColumnShard(MatMul(x, w, cols), s, r)
  {
    hide Product, DotColumn;
    var mine, whole := MatMul(x, ColumnShard(w, s, r), s), ColumnShard(MatMul(x, w, cols), s, r);
    forall i | 0 <= i < |x|
      ensures mine[i] == whole[i]
    {
      forall j | 0 <= j < s
        ensures mine[i][j] == whole[i][j]
      {
        ShardDot(x[i], w, s, r, j, |w|, cols);
      }
    }
  }

  function Slices(y: Matrix, s: nat, k: nat, cols: nat): (shards: seq<Matrix>)
    requires (forall i :: 0 <= i < |y| ==> |y[i]| == cols) && Product(k, s) <= cols
    ensures |shards| == k && forall r :: 0 <= r < k ==> |shards[r]| == |y|
  {
    if k == 0 then [] else
      ShardFits(k - 1, k, s);
      Slices(y, s, k - 1, cols) + [ColumnShard(y, s, k - 1)]
  }

  /** Gathering the slices gives back the columns they cover. */
  lemma {:induction false} GatherSlices(y: Matrix, s: nat, k: nat, cols: nat, i: nat)
    requires (forall r :: 0 <= r < |y| ==> |y[r]| == cols) && Product(k, s) <= cols && i < |y|
    ensures Gather(Slices(y, s, k, cols), |y|)[i] == y[i][..Product(k, s)]
    decreases k
  {
    hide *;
    if k == 0 {
      GatherNone(y, s, cols, i);
    } else {
      ShardBounds(s, k, k);
      GatherSlices(y, s, k - 1, cols, i);
      GatherOneMore(y, s, k, cols, i);
    }
  }

  lemma GatherNone(y: Matrix, s: nat, cols: nat, i: nat)
    requires (forall r :: 0 <= r < |y| ==> |y[r]| == cols) && i < |y|
    ensures Product(0, s) == 0 && Gather(Slices(y, s, 0, cols), |y|)[i] == y[i][..Product(0, s)]
  {
  }

  lemma GatherOneMore(y: Matrix, s: nat, k: nat, cols: nat, i: nat)
    requires (forall r :: 0 <= r < |y| ==> |y[r]| == cols) && 0 < k && Product(k, s) <= cols && i < |y|
    requires Product(k - 1, s) + s == Product(k, s)
    requires Gather(Slices(y, s, k - 1, cols), |y|)[i] == y[i][..Product(k - 1, s)]
    ensures Gather(Slices(y, s, k, cols), |y|)[i] == y[i][..Product(k, s)]
  {
    var shards := Slices(y, s, k, cols);
    assert shards[..k - 1] == Slices(y, s, k - 1, cols);
    hide Product, Slices;
  }

  lemma GatherWhole(y: Matrix, n: nat, cols: nat)
    requires n > 0 && cols % n == 0 && forall r :: 0 <= r < |y| ==> |y[r]| == cols
    ensures Product(n, cols / n) <= cols && Gather(Slices(y, cols / n, n, cols), |y|) == y
  {
    Whole(cols, n);
    var all := Gather(Slices(y, cols / n, n, cols), |y|);
    hide Product, Gather, Slices;
    forall i | 0 <= i < |y|
      ensures all[i] == y[i]
    {
      GatherSlices(y, cols / n, n, cols, i);
    }
  }

  class ColumnParallelLinear {
    const shards: seq<Matrix>
    const worldSize: nat
    const shardCols: nat
    ghost const weight: Matrix
    ghost const cols: nat

    ghost predicate Valid() {
      && worldSize > 0 && cols % worldSize == 0 && shardCols == cols / worldSize
      && (forall k :: 0 <= k < |weight| ==> |weight[k]| == cols)
      && |shards| == worldSize
      && (forall r :: 0 <= r < worldSize ==>
            Product(r, shardCols) + shardCols <= cols && shards[r] == ColumnShard(weight, shardCols, r))
    }

    constructor (w: Matrix, n: nat, c: nat)
      requires n > 0 && c % n == 0 && forall k :: 0 <= k < |w| ==> |w[k]| == c
      ensures Valid() && weight == w && cols == c && worldSize == n
    {
      Whole(c, n);
      forall r | 0 <= r < n
        ensures Product(r, c / n) + c / n <= c
      {
        ShardFits(r, n, c / n);
      }
      shards := ShardColumns(w, n, c).value;
      worldSize, shardCols, weight, cols := n, c / n, w, c;
    }

    /** Every rank multiplies by its shard; the outputs side by side are the whole product. */
    method Forward(x: Matrix) returns (y: Matrix)
      requires Valid() && forall i :: 0 <= i < |x| ==> |x[i]| == |weight|
      ensures y == MatMul(x, weight, cols)
    {
      hide Product, MatMul, ColumnShard, Gather, Slices;
      Whole(cols, worldSize);
      var outs: seq<Matrix>, r := [], 0;
      NoSlices(MatMul(x, weight, cols), shardCols, cols);
      while r < worldSize
        invariant r <= worldSize && Product(r, shardCols) <= cols
        invariant outs == Slices(MatMul(x, weight, cols), shardCols, r, cols)
      {
        ShardFits(r, worldSize, shardCols);
        ShardShape(weight, shardCols, r, cols);
        RankOutput(x, weight, shardCols, r, cols);
        NextSlice(MatMul(x, weight, cols), shardCols, r, cols);
        outs := outs + [MatMul(x, shards[r], shardCols)];
        r := r + 1;
      }
      GatherWhole(MatMul(x, weight, cols), worldSize, cols);
      y := Gather(outs, |x|);
    }
  }

  lemma NoSlices(y: Matrix, s: nat, cols: nat)
    requires forall i :: 0 <= i < |y| ==> |y[i]| == cols
    ensures Product(0, s) == 0 && Slices(y, s, 0, cols) == []
  {
  }

  lemma NextSlice(y: Matrix, s: nat, r: nat, cols: nat)
    requires (forall i :: 0 <= i < |y| ==> |y[i]| == cols) && Product(r + 1, s) <= cols && Product(r, s) + s <= cols
    ensures Product(r, s) <= cols && Slices(y, s, r + 1, cols) == Slices(y, s, r, cols) + [ColumnShard(y, s, r)]
  {
  }

  lemma ShardShape(w: Matrix, s: nat, r: nat, cols: nat)
    requires (forall k :: 0 <= k < |w| ==> |w[k]| == cols) && Product(r, s) + s <= cols
    ensures |ColumnShard(w, s, r)| == |w| && forall k :: 0 <= k < |w| ==> |ColumnShard(w, s, r)[k]| == s
  {
  }

  // ---- row-parallel: one all-reduce

  /** The dot product over the entries of shard r. */
  lemma {:induction false} PartialDot(x: Row, w: Matrix, j: nat, s: nat, r: nat, n: nat)
    requires n <= s && Product(r, s) + s <= |x| == |w| && forall k :: 0 <= k < |w| ==> j < |w[k]|
    ensures DotColumn(x[Product(r, s)..Product(r, s) + s], RowShard(w, s, r), j, n)
         == DotColumn(x, w, j, Product(r, s) + n) - DotColumn(x, w, j, Product(r, s))
    decreases n
  {
    hide Product;
    if n > 0 {
      PartialDot(x, w, j, s, r, n - 1);
      assert RowShard(w, s, r)[n - 1] == w[Product(r, s) + n - 1];
    }
  }

  /** Rank r's contribution to the product. */
  function Partial(x: Matrix, w: Matrix, s: nat, r: nat, cols: nat): (p: Matrix)
    requires (forall i :: 0 <= i < |x| ==> |x[i]| == |w|) && (forall k :: 0 <= k < |w| ==> |w[k]| == cols)
    requires Product(r, s) + s <= |w|
    ensures Shape(p, |x|, cols)
  {
    MatMul(ColumnShard(x, s, r), RowShard(w, s, r), cols)
  }

  lemma PartialElement(x: Matrix, w: Matrix, s: nat, r: nat, cols: nat, i: nat, j: nat)
    requires (forall a :: 0 <= a < |x| ==> |x[a]| == |w|) && (forall k :: 0 <= k < |w| ==> |w[k]| == cols)
    requires Product(r, s) + s <= |w| && i < |x| && j < cols
    ensures Partial(x, w, s, r, cols)[i][j] ==
      DotColumn(x[i], w, j, Product(r, s) + s) - DotColumn(x[i], w, j, Product(r, s))
  {
    PartialDot(x[i], w, j, s, r, s);
    hide Product, DotColumn;
  }

  /** The partials add up to the whole product. */
  lemma {:induction false} PartialsAdd(x: Matrix, w: Matrix, partials: seq<Matrix>, s: nat, n: nat, k: nat, cols: nat,
                                       i: nat, j: nat)
    requires (forall a :: 0 <= a < |x| ==> |x[a]| == |w|) && (forall a :: 0 <= a < |w| ==> |w[a]| == cols)
    requires k <= n == |partials| && Product(n, s) <= |w| && i < |x| && j < cols && AllShaped(partials, |x|, cols)
    requires forall r :: 0 <= r < n ==> Product(r, s) + s <= |w| && partials[r] == Partial(x, w, s, r, cols)
    ensures Product(k, s) <= |w| && SumOf(partials, k, i, j) == DotColumn(x[i], w, j, Product(k, s))
    decreases k
  {
    hide *;
    ShardBounds(s, n, k);
    if k == 0 {
      EmptySums(x[i], w, partials, s, i, j, |x|, cols);
    } else {
      PartialsAdd(x, w, partials, s, n, k - 1, cols, i, j);
      PartialElement(x, w, s, k - 1, cols, i, j);
      SumStep(partials, k, i, j, |x|, cols);
    }
  }

  lemma ShardBounds(s: nat, n: nat, k: nat)
    requires k <= n
    ensures Product(k, s) <= Product(n, s)
    ensures k > 0 ==> Product(k - 1, s) + s == Product(k, s)
  {
    if k > 0 {
      ShardFits(k - 1, n, s);
    }
  }

  lemma EmptySums(row: Row, w: Matrix, partials: seq<Matrix>, s: nat, i: nat, j: nat, rows: nat, cols: nat)
    requires AllShaped(partials, rows, cols) && i < rows && j < cols && forall k :: 0 <= k < |w| ==> |w[k]| == cols
    ensures Product(0, s) == 0 && SumOf(partials, 0, i, j) == 0.0 && DotColumn(row, w, j, 0) == 0.0
  {
  }

  lemma SumStep(partials: seq<Matrix>, k: nat, i: nat, j: nat, rows: nat, cols: nat)
    requires AllShaped(partials, rows, cols) && i < rows && j < cols && 0 < k <= |partials|
    ensures SumOf(partials, k, i, j) == SumOf(partials, k - 1, i, j) + partials[k - 1][i][j]
  {
  }

  /** The all-reduced partials are the whole product. */
  lemma ReducedIsProduct(x: Matrix, w: Matrix, partials: seq<Matrix>, s: nat, n: nat, cols: nat, y: Matrix)
    requires (forall a :: 0 <= a < |x| ==> |x[a]| == |w|) && (forall a :: 0 <= a < |w| ==> |w[a]| == cols)
    requires n > 0 && |w| % n == 0 && s == |w| / n && |partials| == n && AllShaped(partials, |x|, cols)
    requires forall r :: 0 <= r < n ==> Product(r, s) + s <= |w| && partials[r] == Partial(x, w, s, r, cols)
    requires Shape(y, |x|, cols)
    requires forall i, j :: 0 <= i < |x| && 0 <= j < cols ==> y[i][j] == SumOf(partials, n, i, j)
    ensures y == MatMul(x, w, cols)
  {
    Whole(|w|, n);
    var whole := MatMul(x, w, cols);
    hide Product, Partial, DotColumn;
    forall i, j | 0 <= i < |x| && 0 <= j < cols
      ensures y[i][j] == whole[i][j]
    {
      PartialsAdd(x, w, partials, s, n, n, cols, i, j);
    }
    SameMatrix(y, whole, |x|, cols);
  }

  class RowParallelLinear {
    const shards: seq<Matrix>
    const worldSize: nat
    const shardRows: nat
    const cols: nat
    ghost const weight: Matrix
    var lastBytes: nat

    ghost predicate Valid() {
      && worldSize > 0 && |weight| % worldSize == 0 && shardRows == |weight| / worldSize
      && (forall k :: 0 <= k < |weight| ==> |weight[k]| == cols)
      && |shards| == worldSize
      && (forall r :: 0 <= r < worldSize ==>
            Product(r, shardRows) + shardRows <= |weight| && shards[r] == RowShard(weight, shardRows, r))
    }

    constructor (w: Matrix, n: nat, c: nat)
      requires n > 0 && |w| % n == 0 && forall k :: 0 <= k < |w| ==> |w[k]| == c
      ensures Valid() && weight == w && cols == c && worldSize == n && lastBytes == 0
    {
      Whole(|w|, n);
      forall r | 0 <= r < n
        ensures Product(r, |w| / n) + |w| / n <= |w|
      {
        ShardFits(r, n, |w| / n);
      }
      shards := ShardRows(w, n).value;
      worldSize, shardRows, weight, cols := n, |w| / n, w, c;
      lastBytes := 0;
    }

    /** Every rank consumes its slice of x; the all-reduce of the partials is the whole product. */
    method Forward(x: Matrix) returns (y: Matrix)
      requires Valid() && forall i :: 0 <= i < |x| ==> |x[i]| == |weight|
      modifies this
      ensures y == MatMul(x, weight, cols)
      ensures lastBytes == 2 * (worldSize - 1) * (4 * |x| * cols) / worldSize
    {
      var partials := Partials(x);
      y := AllReduce(partials, |x|, cols);
      ReducedIsProduct(x, weight, partials, shardRows, worldSize, cols, y);
      hide MatMul, Partial;
      lastBytes := 2 * (worldSize - 1) * (4 * |x| * cols) / worldSize;
    }

    method Partials(x: Matrix) returns (partials: seq<Matrix>)
      requires Valid() && forall i :: 0 <= i < |x| ==> |x[i]| == |weight|
      ensures |partials| == worldSize && AllShaped(partials, |x|, cols)
      ensures forall r :: 0 <= r < worldSize ==>
        Product(r, shardRows) + shardRows <= |weight| && partials[r] == Partial(x, weight, shardRows, r, cols)
    {
      hide Product, MatMul;
      partials := [];
      while |partials| < worldSize
        invariant |partials| <= worldSize && AllShaped(partials, |x|, cols)
        invariant forall r :: 0 <= r < |partials| ==> partials[r] == Partial(x, weight, shardRows, r, cols)
      {
        var r := |partials|;
        var p := MatMul(ColumnShard(x, shardRows, r), shards[r], cols);
        assert p == Partial(x, weight, shardRows, r, cols);
        partials := partials + [p];
      }
    }
  }

  lemma SameMatrix(a: Matrix, b: Matrix, rows: nat, cols: nat)
    requires Shape(a, rows, cols) && Shape(b, rows, cols)
    requires forall i, j :: 0 <= i < rows && 0 <= j < cols ==> a[i][j] == b[i][j]
    ensures a == b
  {
    forall i | 0 <= i < rows
      ensures a[i] == b[i]
    {
    }
  }

  /**
   Column-parallel then row-parallel is the unsharded composition, for every world size that divides
   the inner dimension.
   */
  method ShardedEqualsReference(x: Matrix, wCol: Matrix, wRow: Matrix, inner: nat, cols: nat,
                                n: nat) returns (y: Matrix)
    requires n > 0 && inner % n == 0 && |wRow| == inner
    requires (forall i :: 0 <= i < |x| ==> |x[i]| == |wCol|) && (forall k :: 0 <= k < |wCol| ==> |wCol[k]| == inner)
    requires forall k :: 0 <= k < |wRow| ==> |wRow[k]| == cols
    ensures y == MatMul(MatMul(x, wCol, inner), wRow, cols)
  {
    hide MatMul;
    var col := new ColumnParallelLinear(wCol, n, inner);
    var row := new RowParallelLinear(wRow, n, cols);
    var h := col.Forward(x);
    y := row.Forward(h);
  }
}
