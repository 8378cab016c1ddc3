/** Division facts about block-aligned positions, proved once. */
module Numbers {

  /** Python's -(-a // b): how many pages of b tokens hold a tokens. */
  function CeilDiv(a: nat, b: nat): (q: nat)
    requires b > 0
    ensures a <= q * b
    ensures q > 0 ==> (q - 1) * b < a
  {
    (a + b - 1) / b
  }

  lemma MulMono(x: int, y: int, b: nat)
    requires x <= y
    ensures x * b <= y * b
  {
  }

  /** CeilDiv is the only count of pages that fits without a spare page. */
  lemma CeilDivUnique(a: nat, b: nat, q: nat)
    requires b > 0
    requires a <= q * b
    requires q > 0 ==> (q - 1) * b < a
    ensures CeilDiv(a, b) == q
  {
    var c := CeilDiv(a, b);
    if c < q {
      MulMono(c, q - 1, b);
    } else if q < c {
      MulMono(q, c - 1, b);
    }
  }

  lemma CeilDivMono(a: nat, a': nat, b: nat)
    requires b > 0 && a <= a'
    ensures CeilDiv(a, b) <= CeilDiv(a', b)
  {
    var c, c' := CeilDiv(a, b), CeilDiv(a', b);
    if c' < c {
      MulMono(c', c - 1, b);
    }
  }

  /** a tokens fit in q pages exactly when CeilDiv(a) <= q. */
  lemma CeilDivFits(a: nat, b: nat, q: nat)
    requires b > 0
    ensures CeilDiv(a, b) <= q <==> a <= q * b
  {
    var c := CeilDiv(a, b);
    if c <= q {
      MulMono(c, q, b);
    } else {
      MulMono(q, c - 1, b);
    }
  }

  /** The page and the slot of a position are unique. */
  lemma PositionUnique(p: nat, i: nat, k: nat, b: nat)
    requires b > 0 && k < b && p == i * b + k
    ensures p / b == i && p % b == k
  {
    var q, r := p / b, p % b;
    assert p == q * b + r;
    if q < i {
      MulMono(q, i - 1, b);
    } else if i < q {
      MulMono(i, q - 1, b);
    }
  }

  lemma PageBound(p: nat, n: nat, b: nat)
    requires b > 0 && p < n * b
    ensures p / b < n
  {
    if n <= p / b {
      MulMono(n, p / b, b);
    }
  }

  lemma PageAtLeast(p: nat, n: nat, b: nat)
    requires b > 0 && n * b <= p
    ensures n <= p / b
  {
    if p / b < n {
      MulMono(p / b, n - 1, b);
    }
  }
}
