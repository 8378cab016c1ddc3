/** The ring on real tensors: a pad-free split, element-wise addition, concatenation. */
module RingSums {
  import opened Ring
  import opened RingLaws

  type Tensor = seq<real>

  // ---- near-equal split

  function Min(a: nat, b: nat): nat { if a < b then a else b }

  /** Where chunk c of a tensor of `len` elements begins; the first len % n chunks are one longer. */
  function Offset(len: nat, n: nat, c: nat): nat
    requires n > 0
  {
    c * (len / n) + Min(c, len % n)
  }

  lemma OffsetsGrow(len: nat, n: nat, c: nat)
    requires n > 0 && c < n
    ensures Offset(len, n, c) <= Offset(len, n, c + 1) <= len
    ensures Offset(len, n, c + 1) - Offset(len, n, c) == len / n + if c < len % n then 1 else 0
    ensures Offset(len, n, 0) == 0 && Offset(len, n, n) == len
  {
    var base := len / n;
    assert len == n * base + len % n;
    assert (c + 1) * base == c * base + base;
    assert (c + 1) * base <= n * base by { Times(c + 1, n, base); }
  }

  lemma Times(a: nat, b: nat, x: nat)
    requires a <= b
    ensures a * x <= b * x
  {
    assert b * x == a * x + (b - a) * x;
  }

  function Chunk(x: Tensor, n: nat, c: nat): (s: Tensor)
    requires n > 0 && c < n
    ensures |s| == |x| / n + if c < |x| % n then 1 else 0
  {
    OffsetsGrow(|x|, n, c);
    x[Offset(|x|, n, c)..Offset(|x|, n, c + 1)]
  }

  function SplitChunks(x: Tensor, n: nat): seq<Tensor>
    requires n > 0
  {
    seq(n, c requires 0 <= c < n => Chunk(x, n, c))
  }

  function Concat(chunks: seq<Tensor>): Tensor {
    if chunks == [] then [] else Concat(chunks[..|chunks| - 1]) + chunks[|chunks| - 1]
  }

  lemma {:induction false} ConcatPrefix(x: Tensor, n: nat, k: nat)
    requires n > 0 && k <= n
    ensures Offset(|x|, n, k) <= |x|
    ensures Concat(SplitChunks(x, n)[..k]) == x[..Offset(|x|, n, k)]
    decreases k
  {
    if k > 0 {
      ConcatPrefix(x, n, k - 1);
      OffsetsGrow(|x|, n, k - 1);
      hide Offset;
      assert SplitChunks(x, n)[..k][..k - 1] == SplitChunks(x, n)[..k - 1];
    } else {
      OffsetsGrow(|x|, n, 0);
    }
  }

  /** Splitting and concatenating loses nothing. */
  lemma SplitRoundTrip(x: Tensor, n: nat)
    requires n > 0
    ensures Concat(SplitChunks(x, n)) == x
  {
    ConcatPrefix(x, n, n);
    OffsetsGrow(|x|, n, n - 1);
    hide Concat, Offset;
    assert SplitChunks(x, n)[..n] == SplitChunks(x, n);
  }

  // ---- the job

  function Add(x: Tensor, y: Tensor): (s: Tensor)
    ensures |s| == |x|
  {
    if |x| == |y| then seq(|x|, i requires 0 <= i < |x| => x[i] + y[i]) else x
  }

  /** What run_ring_allreduce accepts: two ranks or more, equal shapes, an element for every rank. */
  predicate Acceptable(tensors: seq<Tensor>) {
    && |tensors| >= 2 && |tensors[0]| >= |tensors|
    && forall r :: 0 <= r < |tensors| ==> |tensors[r]| == |tensors[0]|
  }

  /** Four bytes an element. */
  function Job(tensors: seq<Tensor>): (u: Setup<Tensor>)
    requires |tensors| > 0
    ensures Acceptable(tensors) ==> Proper(u)
  {
    Setup(|tensors|, seq(|tensors|, r requires 0 <= r < |tensors| => SplitChunks(tensors[r], |tensors|)),
          (x, y) => Add(x, y), (x: Tensor) => 4 * |x|)
  }

  // ---- the sum

  /** The sum of element p over ranks 0..k-1. */
  function Column(tensors: seq<Tensor>, p: nat, k: nat): real
    requires Acceptable(tensors) && k <= |tensors| && p < |tensors[0]|
  {
    if k == 0 then 0.0 else Column(tensors, p, k - 1) + tensors[k - 1][p]
  }

  function Sum(tensors: seq<Tensor>): Tensor
    requires Acceptable(tensors)
  {
    seq(|tensors[0]|, p requires 0 <= p < |tensors[0]| => Column(tensors, p, |tensors|))
  }

  lemma ColumnStep(tensors: seq<Tensor>, p: nat, r: nat)
    requires Acceptable(tensors) && r < |tensors| && p < |tensors[0]|
    ensures p < |tensors[r]| && Column(tensors, p, r + 1) == Column(tensors, p, r) + tensors[r][p]
    ensures Column(tensors, p, 0) == 0.0
  {
  }

  /** The sum of element p over ranks c, ..., c + k around the ring. */
  function Around(tensors: seq<Tensor>, p: nat, c: nat, k: nat): real
    requires Acceptable(tensors) && c < |tensors| && k < |tensors| && p < |tensors[0]|
  {
    var n := |tensors|;
    if c + k < n then Column(tensors, p, c + k + 1) - Column(tensors, p, c)
    else Column(tensors, p, n) - Column(tensors, p, c) + Column(tensors, p, c + k + 1 - n)
  }

  lemma AroundStep(tensors: seq<Tensor>, p: nat, c: nat, k: nat)
    requires Acceptable(tensors) && c < |tensors| && k < |tensors| && p < |tensors[0]|
    ensures var r := if c + k < |tensors| then c + k else c + k - |tensors|;
      && p < |tensors[r]|
      && Around(tensors, p, c, k) == tensors[r][p] + if k == 0 then 0.0 else Around(tensors, p, c, k - 1)
  {
    var r := if c + k < |tensors| then c + k else c + k - |tensors|;
    ColumnStep(tensors, p, r);
    hide Column;
  }

  /** Element i of chunk c's partial result is the sum around the ring, whatever order the ring adds in. */
  ghost predicate ElementIs(tensors: seq<Tensor>, c: nat, k: nat, i: nat)
    requires Acceptable(tensors) && c < |tensors| && k < |tensors|
  {
    var p, fold := Offset(|tensors[0]|, |tensors|, c) + i, Fold(Job(tensors), c, k);
    && p < |tensors[0]| && i < |fold|
    && fold[i] == Around(tensors, p, c, k)
  }

  lemma ElementStep(tensors: seq<Tensor>, c: nat, k: nat, i: nat, fold: Tensor, before: Tensor)
    requires Acceptable(tensors) && c < |tensors| && k < |tensors| && i < |Chunk(tensors[0], |tensors|, c)|
    requires Offset(|tensors[0]|, |tensors|, c) + i < |tensors[0]|
    requires var r := if c + k < |tensors| then c + k else c + k - |tensors|;
      fold == if k == 0 then Chunk(tensors[r], |tensors|, c) else Add(Chunk(tensors[r], |tensors|, c), before)
    requires |before| == |Chunk(tensors[0], |tensors|, c)|
    requires k > 0 ==> before[i] == Around(tensors, Offset(|tensors[0]|, |tensors|, c) + i, c, k - 1)
    ensures i < |fold| && fold[i] == Around(tensors, Offset(|tensors[0]|, |tensors|, c) + i, c, k)
  {
    var p, r := Offset(|tensors[0]|, |tensors|, c) + i, if c + k < |tensors| then c + k else c + k - |tensors|;
    hide *;
    ChunkElement(tensors, r, c, i);
    AroundStep(tensors, p, c, k);
    if k > 0 {
      AddElement(Chunk(tensors[r], |tensors|, c), before, i);
    }
  }

  lemma {:induction false} FoldElement(tensors: seq<Tensor>, c: nat, k: nat, i: nat)
    requires Acceptable(tensors) && c < |tensors| && k < |tensors|
    requires i < |Chunk(tensors[0], |tensors|, c)|
    ensures ElementIs(tensors, c, k, i)
    decreases k
  {
    hide *;
    FoldDefined(tensors);
    var u, n := Job(tensors), |tensors|;
    var r := if c + k < n then c + k else c + k - n;
    ChunkElement(tensors, r, c, i);
    FoldStep(tensors, c, k);
    FoldLength(tensors, c, k);
    if k == 0 {
      ElementStep(tensors, c, 0, i, Fold(u, c, 0), Fold(u, c, 0));
    } else {
      FoldElement(tensors, c, k - 1, i);
      FoldLength(tensors, c, k - 1);
      ElementIsDefined(tensors, c, k - 1, i);
      ElementStep(tensors, c, k, i, Fold(u, c, k), Fold(u, c, k - 1));
    }
    ElementIsDefined(tensors, c, k, i);
  }

  lemma FoldDefined(tensors: seq<Tensor>)
    requires Acceptable(tensors)
    ensures var u := Job(tensors);
      u.n == |tensors| && |u.input| == u.n && forall r :: 0 <= r < u.n ==> |u.input[r]| == u.n
  {
  }

  lemma ElementIsDefined(tensors: seq<Tensor>, c: nat, k: nat, i: nat)
    requires Acceptable(tensors) && c < |tensors| && k < |tensors|
    requires i < |Fold(Job(tensors), c, k)| && Offset(|tensors[0]|, |tensors|, c) + i < |tensors[0]|
    ensures ElementIs(tensors, c, k, i) <==>
      Fold(Job(tensors), c, k)[i] == Around(tensors, Offset(|tensors[0]|, |tensors|, c) + i, c, k)
  {
    hide Proper, Fold, Around, Offset;
  }

  lemma AddElement(x: Tensor, y: Tensor, i: nat)
    requires |x| == |y| && i < |x|
    ensures Add(x, y)[i] == x[i] + y[i]
  {
  }

  lemma ChunkElement(tensors: seq<Tensor>, r: nat, c: nat, i: nat)
    requires Acceptable(tensors) && r < |tensors| && c < |tensors| && i < |Chunk(tensors[0], |tensors|, c)|
    ensures |Chunk(tensors[r], |tensors|, c)| == |Chunk(tensors[0], |tensors|, c)|
    ensures Offset(|tensors[0]|, |tensors|, c) + i < |tensors[0]|
    ensures Chunk(tensors[r], |tensors|, c)[i] == tensors[r][Offset(|tensors[0]|, |tensors|, c) + i]
  {
    OffsetsGrow(|tensors[0]|, |tensors|, c);
    hide Offset;
  }

  lemma FoldStep(tensors: seq<Tensor>, c: nat, k: nat)
    requires Acceptable(tensors) && c < |tensors| && k < |tensors|
    ensures var n := |tensors|;
      var r := if c + k < n then c + k else c + k - n;
      Fold(Job(tensors), c, k) ==
        if k == 0 then Chunk(tensors[r], n, c) else Add(Chunk(tensors[r], n, c), Fold(Job(tensors), c, k - 1))
  {
    hide Proper, Chunk;
  }

  lemma FoldIsSlice(tensors: seq<Tensor>, c: nat)
    requires Acceptable(tensors) && c < |tensors|
    ensures Fold(Job(tensors), c, |tensors| - 1) == Chunk(Sum(tensors), |tensors|, c)
  {
    hide *;
    FoldDefined(tensors);
    var n := |tensors|;
    var whole, slice := Fold(Job(tensors), c, n - 1), Chunk(Sum(tensors), n, c);
    FoldLength(tensors, c, n - 1);
    SumLength(tensors, c);
    forall i | 0 <= i < |slice|
      ensures whole[i] == slice[i]
    {
      FoldElement(tensors, c, n - 1, i);
      SumElement(tensors, c, i);
      ElementIsDefined(tensors, c, n - 1, i);
    }
  }

  lemma SumLength(tensors: seq<Tensor>, c: nat)
    requires Acceptable(tensors) && c < |tensors|
    ensures |Chunk(Sum(tensors), |tensors|, c)| == |Chunk(tensors[0], |tensors|, c)|
  {
  }

  lemma SumElement(tensors: seq<Tensor>, c: nat, i: nat)
    requires Acceptable(tensors) && c < |tensors| && i < |Chunk(tensors[0], |tensors|, c)|
    ensures |Chunk(Sum(tensors), |tensors|, c)| == |Chunk(tensors[0], |tensors|, c)|
    ensures Offset(|tensors[0]|, |tensors|, c) + i < |tensors[0]|
    ensures Chunk(Sum(tensors), |tensors|, c)[i] == Column(tensors, Offset(|tensors[0]|, |tensors|, c) + i, |tensors|)
    ensures Around(tensors, Offset(|tensors[0]|, |tensors|, c) + i, c, |tensors| - 1) ==
      Column(tensors, Offset(|tensors[0]|, |tensors|, c) + i, |tensors|)
  {
    OffsetsGrow(|tensors[0]|, |tensors|, c);
    hide Offset;
  }

  lemma FoldLength(tensors: seq<Tensor>, c: nat, k: nat)
    requires Acceptable(tensors) && c < |tensors| && k < |tensors|
    ensures |Fold(Job(tensors), c, k)| == |Chunk(tensors[0], |tensors|, c)|
  {
    FoldSize(Job(tensors), c, k);
    hide Proper, Fold;
  }

  lemma ReducedIsSum(tensors: seq<Tensor>)
    requires Acceptable(tensors)
    ensures Reduced(Job(tensors)) == SplitChunks(Sum(tensors), |tensors|)
  {
    hide Proper, Fold, Sum;
    forall c | 0 <= c < |tensors|
      ensures Reduced(Job(tensors))[c] == SplitChunks(Sum(tensors), |tensors|)[c]
    {
      FoldIsSlice(tensors, c);
    }
  }

  /** In exact arithmetic every rank ends with the element-wise sum, whatever the interleaving. */
  lemma RingSumsTensors(tensors: seq<Tensor>, actions: seq<Action>, r: nat)
    requires Acceptable(tensors) && Play(Job(tensors), actions).Some?
    requires Done(Play(Job(tensors), actions).value, |tensors|) && r < |tensors|
    ensures r < |Play(Job(tensors), actions).value.ranks|
    ensures Concat(Play(Job(tensors), actions).value.ranks[r].chunks) == Sum(tensors)
  {
    AllRanksAgree(Job(tensors), actions, r);
    ReducedIsSum(tensors);
    SplitRoundTrip(Sum(tensors), |tensors|);
  }

  lemma {:induction false} PrefixIsOffset(tensors: seq<Tensor>, k: nat)
    requires Acceptable(tensors) && k <= |tensors|
    ensures Prefix(Job(tensors), k) == 4 * Offset(|tensors[0]|, |tensors|, k)
    decreases k
  {
    if k > 0 {
      PrefixIsOffset(tensors, k - 1);
      OffsetsGrow(|tensors[0]|, |tensors|, k - 1);
      hide Proper, Offset;
    }
  }

  /** The size of chunk c: a whole share of the elements, and one more for the first len % n chunks. */
  lemma JobSize(tensors: seq<Tensor>, c: nat)
    requires Acceptable(tensors) && c < |tensors|
    ensures SizeOf(Job(tensors), c) ==
      4 * (|tensors[0]| / |tensors|) + if c < |tensors[0]| % |tensors| then 4 else 0
  {
    hide Proper;
    assert Job(tensors).input[0][c] == Chunk(tensors[0], |tensors|, c);
  }

  lemma JobTotal(tensors: seq<Tensor>)
    requires Acceptable(tensors)
    ensures Job(tensors).n == |tensors| && Total(Job(tensors)) == 4 * |tensors[0]|
  {
    PrefixIsOffset(tensors, |tensors|);
    OffsetsGrow(|tensors[0]|, |tensors|, |tensors| - 1);
    hide Proper, Offset, Prefix;
  }

  /** How many of the chunks a and b are among the long ones. */
  function Longer(len: nat, n: nat, a: nat, b: nat): (k: nat)
    requires n > 0
  {
    (if a < len % n then 1 else 0) + if b < len % n then 1 else 0
  }

  /** A rank's share is average just when n times its long skipped chunks are twice the long chunks. */
  lemma Average(n: nat, len: nat, k: nat)
    requires n > 0
    ensures n * (8 * (len / n) + 4 * k) == 2 * (4 * len) <==> n * k == 2 * (len % n)
  {
    var base := len / n;
    assert len == n * base + len % n;
    assert n * (8 * base + 4 * k) == 8 * (n * base) + 4 * (n * k);
  }

  lemma ShareIs(tensors: seq<Tensor>, r: nat)
    requires Acceptable(tensors) && r < |tensors|
    ensures var n, len := |tensors|, |tensors[0]|;
      n * BytesOf(Job(tensors), r, Steps(n)) == 2 * (n - 1) * (4 * len) <==>
        n * Longer(len, n, Ahead(r, 1, n), Ahead(r, 2, n)) == 2 * (len % n)
  {
    var n, len, u := |tensors|, |tensors[0]|, Job(tensors);
    JobTotal(tensors);
    JobSize(tensors, Ahead(r, 1, n));
    JobSize(tensors, Ahead(r, 2, n));
    BandwidthFormula(u, r);
    Average(n, len, Longer(len, n, Ahead(r, 1, n), Ahead(r, 2, n)));
    hide Proper, Acceptable, BytesOf, SizeOf, Total, Ahead, Job, Steps;
  }

  lemma TwoRanksSkipAll(len: nat, r: nat)
    requires r < 2
    ensures 2 * Longer(len, 2, Ahead(r, 1, 2), Ahead(r, 2, 2)) == 2 * (len % 2)
  {
  }

  lemma NobodyIsLonger(len: nat, n: nat, a: nat, b: nat)
    requires n > 0 && len % n == 0
    ensures n * Longer(len, n, a, b) == 2 * (len % n)
  {
  }

  /** The last rank skips chunks 0 and 1. */
  lemma LastRankTells(len: nat, n: nat)
    requires n >= 2 && n * Longer(len, n, Ahead(n - 1, 1, n), Ahead(n - 1, 2, n)) == 2 * (len % n)
    ensures n == 2 || len % n == 0
  {
    var k := Longer(len, n, 0, 1);
    assert k == 2 ==> n * k == 2 * n;
  }

  /** Every rank sends exactly 2(n-1)/n of the tensor. */
  ghost predicate EvenShares(tensors: seq<Tensor>)
    requires Acceptable(tensors)
  {
    var n := |tensors|;
    forall r :: 0 <= r < n ==> n * BytesOf(Job(tensors), r, Steps(n)) == 2 * (n - 1) * (4 * |tensors[0]|)
  }

  /**
   All ranks together move 2(n-1) times the tensor's bytes. Each moves exactly its share of
   that if and only if there are two ranks or n divides the number of elements.
   */
  lemma RingTraffic(tensors: seq<Tensor>)
    requires Acceptable(tensors)
    ensures Total(Job(tensors)) == 4 * |tensors[0]|
    ensures SentBy(Job(tensors), |tensors|) == 2 * (|tensors| - 1) * (4 * |tensors[0]|)
    ensures EvenShares(tensors) <==> |tensors| == 2 || |tensors[0]| % |tensors| == 0
  {
    var n, len := |tensors|, |tensors[0]|;
    JobTotal(tensors);
    TotalTraffic(Job(tensors));
    hide Proper, SentBy, BytesOf, Total, Job, Longer, Steps, Ahead;
    if n == 2 || len % n == 0 {
      forall r | 0 <= r < n
        ensures n * BytesOf(Job(tensors), r, Steps(n)) == 2 * (n - 1) * (4 * len)
      {
        ShareIs(tensors, r);
        if n == 2 {
          TwoRanksSkipAll(len, r);
        } else {
          NobodyIsLonger(len, n, Ahead(r, 1, n), Ahead(r, 2, n));
        }
      }
    } else if EvenShares(tensors) {
      ShareIs(tensors, n - 1);
      LastRankTells(len, n);
      assert false;
    }
  }

  /** Three ranks and four elements: the last rank sends 20 bytes, where the formula has 21 and a third. */
  lemma UnevenShare(tensors: seq<Tensor>)
    requires Acceptable(tensors) && |tensors| == 3 && |tensors[0]| == 4
    ensures BytesOf(Job(tensors), 2, Steps(3)) == 20 && !EvenShares(tensors)
  {
    JobTotal(tensors);
    JobSize(tensors, 0);
    JobSize(tensors, 1);
    BytesPerRank(Job(tensors), 2);
    RingTraffic(tensors);
    hide Proper, BytesOf, SizeOf, Total, Job, EvenShares;
  }
}
