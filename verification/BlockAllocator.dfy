/**
 The physical block allocator: a free list used as a stack and a reference
 count per block.
 */
module Blocks {

  datatype Pool = Pool(free: seq<nat>, ref: seq<nat>)

  /** Blocks 0..n-1 all free; the lowest id is popped first. */
  function Initial(n: nat): Pool {
    Pool(seq(n, i requires 0 <= i < n => n - 1 - i), seq(n, _ => 0))
  }

  ghost predicate FreeListOk(p: Pool) {
    && (forall i :: 0 <= i < |p.free| ==> p.free[i] < |p.ref|)
    && (forall i, j :: 0 <= i < j < |p.free| ==> p.free[i] != p.free[j])
    && (forall b :: 0 <= b < |p.ref| ==> (b in p.free <==> p.ref[b] == 0))
  }

  /** Every reference counted is a reference held, and the free list is the rest. */
  ghost predicate Counts(p: Pool, held: multiset<nat>) {
    && FreeListOk(p)
    && (forall b :: b in held ==> b < |p.ref|)
    && (forall b :: 0 <= b < |p.ref| ==> p.ref[b] == held[b])
  }

  lemma CountsFreeList(p: Pool, held: multiset<nat>)
    requires Counts(p, held)
    ensures FreeListOk(p)
  {
  }

  // ---- operations on values

  /** Pop the free list. */
  function Allocate(p: Pool): Pool
    requires p.free != []
    requires p.free[|p.free| - 1] < |p.ref|
  {
    var b := p.free[|p.free| - 1];
    Pool(p.free[..|p.free| - 1], p.ref[b := 1])
  }

  /** The ids the next n allocations return, in order. */
  function NextBlocks(p: Pool, n: nat): (blocks: seq<nat>)
    requires n <= |p.free|
    ensures |blocks| == n
  {
    seq(n, i requires 0 <= i < n => p.free[|p.free| - 1 - i])
  }

  function AllocateMany(p: Pool, n: nat): Pool
    requires n <= |p.free|
    requires forall i :: 0 <= i < |p.free| ==> p.free[i] < |p.ref|
    decreases n
  {
    if n == 0 then p else AllocateMany(Allocate(p), n - 1)
  }

  predicate Live(p: Pool, b: nat) {
    b < |p.ref| && p.ref[b] > 0
  }

  function Incref(p: Pool, b: nat): Pool {
    if Live(p, b) then p.(ref := p.ref[b := p.ref[b] + 1]) else p
  }

  function IncrefMany(p: Pool, blocks: seq<nat>): Pool
    decreases |blocks|
  {
    if blocks == [] then p else IncrefMany(Incref(p, blocks[0]), blocks[1..])
  }

  /** Drop one reference; the last one puts the block back on the free list. */
  function Free(p: Pool, b: nat): Pool {
    if !Live(p, b) then p
    else if p.ref[b] == 1 then Pool(p.free + [b], p.ref[b := 0])
    else p.(ref := p.ref[b := p.ref[b] - 1])
  }

  function FreeMany(p: Pool, blocks: seq<nat>): Pool
    decreases |blocks|
  {
    if blocks == [] then p else FreeMany(Free(p, blocks[0]), blocks[1..])
  }

  // ---- conservation

  lemma InitialCounts(n: nat)
    ensures Counts(Initial(n), multiset{})
  {
    var p := Initial(n);
    forall b | 0 <= b < |p.ref|
      ensures b in p.free
    {
      assert p.free[n - 1 - b] == b;
    }
  }

  lemma AllocateFreeList(p: Pool)
    requires FreeListOk(p) && p.free != []
    ensures FreeListOk(Allocate(p))
  {
    var b, q := p.free[|p.free| - 1], Allocate(p);
    assert b in p.free;
    forall c | 0 <= c < |q.ref|
      ensures c in q.free <==> q.ref[c] == 0
    {
      if c in q.free {
        var i :| 0 <= i < |q.free| && q.free[i] == c;
        assert p.free[i] == c;
        assert c in p.free;
      }
      if c in p.free && c != b {
        var i :| 0 <= i < |p.free| && p.free[i] == c;
        assert q.free[i] == c;
      }
    }
  }

  lemma FreeFreeList(p: Pool, b: nat)
    requires FreeListOk(p)
    ensures FreeListOk(Free(p, b)) && p.free <= Free(p, b).free
  {
    var q := Free(p, b);
    if Live(p, b) && p.ref[b] == 1 {
      assert q.free[|p.free|] == b;
      forall c | 0 <= c < |q.ref|
        ensures c in q.free <==> q.ref[c] == 0
      {
        if c in p.free {
          var i :| 0 <= i < |p.free| && p.free[i] == c;
          assert q.free[i] == c;
        }
      }
    }
  }

  lemma AllocateCounts(p: Pool, held: multiset<nat>)
    requires Counts(p, held) && p.free != []
    ensures var b := p.free[|p.free| - 1];
      b !in held && Counts(Allocate(p), held + multiset{b})
  {
    AllocateFreeList(p);
    assert p.free[|p.free| - 1] in p.free;
  }

  lemma {:induction false} AllocateManyFreeList(p: Pool, n: nat)
    requires FreeListOk(p) && n <= |p.free|
    ensures FreeListOk(AllocateMany(p, n)) && |AllocateMany(p, n).ref| == |p.ref|
    ensures AllocateMany(p, n).free == p.free[..|p.free| - n]
    decreases n
  {
    if n > 0 {
      AllocateFreeList(p);
      AllocateManyFreeList(Allocate(p), n - 1);
      assert Allocate(p).free[..|p.free| - n] == p.free[..|p.free| - n];
    } else {
      assert p.free[..|p.free|] == p.free;
    }
  }

  lemma NextBlocksStep(p: Pool, n: nat)
    requires 0 < n <= |p.free| && p.free[|p.free| - 1] < |p.ref|
    ensures NextBlocks(p, n) == [p.free[|p.free| - 1]] + NextBlocks(Allocate(p), n - 1)
  {
  }

  /** The blocks handed out are distinct and were nobody's. */
  lemma NextBlocksAreFree(p: Pool, n: nat, held: multiset<nat>)
    requires Counts(p, held) && n <= |p.free|
    ensures forall b :: b in NextBlocks(p, n) ==> b !in held && b < |p.ref|
    ensures forall i, j :: 0 <= i < j < n ==> NextBlocks(p, n)[i] != NextBlocks(p, n)[j]
  {
    var blocks := NextBlocks(p, n);
    forall i | 0 <= i < n
      ensures blocks[i] in p.free
    {
    }
  }

  lemma ConsCounts(held: multiset<nat>, b: nat, rest: seq<nat>)
    ensures held + multiset{b} + multiset(rest) == held + multiset([b] + rest)
  {
  }

  lemma {:induction false} AllocateManyCounts(p: Pool, n: nat, held: multiset<nat>)
    requires FreeListOk(p) && Counts(p, held) && n <= |p.free|
    ensures Counts(AllocateMany(p, n), held + multiset(NextBlocks(p, n)))
    decreases n
  {
    if n == 0 {
      assert held + multiset(NextBlocks(p, n)) == held;
    } else {
      var b, q := p.free[|p.free| - 1], Allocate(p);
      AllocateCounts(p, held);
      AllocateFreeList(p);
      NextBlocksStep(p, n);
      hide Counts, NextBlocks, FreeListOk;
      AllocateManyCounts(q, n - 1, held + multiset{b});
      ConsCounts(held, b, NextBlocks(q, n - 1));
    }
  }

  lemma IncrefCounts(p: Pool, b: nat, held: multiset<nat>)
    requires Counts(p, held) && b in held
    ensures Live(p, b) && Counts(Incref(p, b), held + multiset{b})
  {
  }

  lemma {:induction false} IncrefManyCounts(p: Pool, blocks: seq<nat>, held: multiset<nat>)
    requires Counts(p, held) && forall b :: b in blocks ==> b in held
    ensures Counts(IncrefMany(p, blocks), held + multiset(blocks))
    ensures IncrefMany(p, blocks).free == p.free
    decreases |blocks|
  {
    if blocks == [] {
      assert held + multiset(blocks) == held;
    } else {
      IncrefCounts(p, blocks[0], held);
      IncrefManyCounts(Incref(p, blocks[0]), blocks[1..], held + multiset{blocks[0]});
      assert blocks == [blocks[0]] + blocks[1..];
      assert held + multiset{blocks[0]} + multiset(blocks[1..]) == held + multiset(blocks);
    }
  }

  lemma {:induction false} IncrefManySize(p: Pool, blocks: seq<nat>)
    ensures |IncrefMany(p, blocks).ref| == |p.ref|
    decreases |blocks|
  {
    if blocks != [] {
      IncrefManySize(Incref(p, blocks[0]), blocks[1..]);
    }
  }

  lemma FreeCounts(p: Pool, b: nat, held: multiset<nat>)
    requires Counts(p, held) && b in held
    ensures Live(p, b) && Counts(Free(p, b), held - multiset{b})
    ensures p.free <= Free(p, b).free
  {
    FreeFreeList(p, b);
  }

  lemma {:induction false} FreeManyCounts(p: Pool, blocks: seq<nat>, held: multiset<nat>)
    requires Counts(p, held) && multiset(blocks) <= held
    ensures Counts(FreeMany(p, blocks), held - multiset(blocks))
    ensures p.free <= FreeMany(p, blocks).free
    decreases |blocks|
  {
    if blocks == [] {
      assert held - multiset(blocks) == held;
    } else {
      assert blocks == [blocks[0]] + blocks[1..];
      assert multiset(blocks) == multiset{blocks[0]} + multiset(blocks[1..]);
      assert blocks[0] in multiset(blocks);
      FreeCounts(p, blocks[0], held);
      FreeManyCounts(Free(p, blocks[0]), blocks[1..], held - multiset{blocks[0]});
      assert held - multiset{blocks[0]} - multiset(blocks[1..]) == held - multiset(blocks);
    }
  }

  /** Releasing a whole block table. */
  lemma ReleaseCounts(p: Pool, blocks: seq<nat>, held: multiset<nat>, rest: multiset<nat>)
    requires Counts(p, held) && held == multiset(blocks) + rest
    ensures Counts(FreeMany(p, blocks), rest)
    ensures |FreeMany(p, blocks).free| >= |p.free| && |FreeMany(p, blocks).ref| == |p.ref|
  {
    hide Counts;
    FreeManyCounts(p, blocks, held);
    FreeManySize(p, blocks);
    assert held - multiset(blocks) == rest;
  }

  lemma {:induction false} FreeManySize(p: Pool, blocks: seq<nat>)
    ensures |FreeMany(p, blocks).ref| == |p.ref|
    decreases |blocks|
  {
    if blocks != [] {
      FreeManySize(Free(p, blocks[0]), blocks[1..]);
    }
  }

  // ---- counting

  /** The set 0..n-1. */
  ghost function Range(n: nat): (r: set<nat>)
    ensures |r| == n
    ensures forall b: nat :: b in r <==> b < n
  {
    if n == 0 then {} else Range(n - 1) + {n - 1}
  }

  ghost function Members(s: seq<nat>): set<nat> { set b | b in s }

  lemma {:induction false} DistinctSize(s: seq<nat>)
    requires forall i, j :: 0 <= i < j < |s| ==> s[i] != s[j]
    ensures |Members(s)| == |s|
    decreases |s|
  {
    if s == [] {
      assert Members(s) == {};
    } else {
      var rest := s[1..];
      DistinctSize(rest);
      assert s == [s[0]] + rest;
      assert s[0] !in rest;
      assert Members(s) == Members(rest) + {s[0]};
    }
  }

  /** No repeats means every member is counted once. */
  lemma {:induction false} DistinctCountOne(s: seq<nat>)
    requires forall i, j :: 0 <= i < j < |s| ==> s[i] != s[j]
    ensures forall b :: b in s ==> multiset(s)[b] == 1
    decreases |s|
  {
    if s != [] {
      DistinctCountOne(s[1..]);
      assert s == [s[0]] + s[1..];
      assert s[0] !in s[1..];
      assert multiset(s) == multiset{s[0]} + multiset(s[1..]);
    }
  }

  /** The distinct blocks some reference holds. */
  ghost function Used(held: multiset<nat>): set<nat> { set b | b in held }

  /** The pool is split exactly: free blocks plus distinct held blocks. */
  lemma PoolPartition(p: Pool, held: multiset<nat>)
    requires Counts(p, held)
    ensures |p.free| + |Used(held)| == |p.ref|
  {
    DistinctSize(p.free);
    assert Members(p.free) !! Used(held);
    assert Members(p.free) + Used(held) == Range(|p.ref|);
  }
}
