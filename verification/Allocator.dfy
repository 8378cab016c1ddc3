/** The block allocator object: a free list used as a stack, a count per block, statistics. */
module Allocation {
  import opened Options
  import opened Blocks

  /** Every reference given up is there when its turn comes. */
  ghost predicate AllLive(p: Pool, blocks: seq<nat>)
    decreases |blocks|
  {
    blocks == [] || (Live(p, blocks[0]) && AllLive(Free(p, blocks[0]), blocks[1..]))
  }

  lemma {:induction false} HeldIsLive(p: Pool, blocks: seq<nat>, held: multiset<nat>)
    requires Counts(p, held) && multiset(blocks) <= held
    ensures AllLive(p, blocks)
    decreases |blocks|
  {
    if blocks != [] {
      assert blocks == [blocks[0]] + blocks[1..];
      assert multiset(blocks) == multiset{blocks[0]} + multiset(blocks[1..]);
      assert blocks[0] in multiset(blocks);
      FreeCounts(p, blocks[0], held);
      HeldIsLive(Free(p, blocks[0]), blocks[1..], held - multiset{blocks[0]});
    }
  }

  ghost predicate AllIncref(p: Pool, blocks: seq<nat>) {
    forall b :: b in blocks ==> Live(p, b)
  }

  /** Only the first n blocks were given up, because the next one was free or unknown. */
  ghost predicate FreedUpTo(p: Pool, blocks: seq<nat>, n: nat, p': Pool)
    requires n < |blocks|
  {
    p' == Blocks.FreeMany(p, blocks[..n]) && !Live(p', blocks[n])
  }

  lemma {:induction false} FreeManySnoc(p: Pool, blocks: seq<nat>, b: nat)
    ensures Blocks.FreeMany(p, blocks + [b]) == Blocks.Free(Blocks.FreeMany(p, blocks), b)
    decreases |blocks|
  {
    if blocks == [] {
      assert [b][1..] == [];
    } else {
      assert (blocks + [b])[1..] == blocks[1..] + [b];
      FreeManySnoc(Blocks.Free(p, blocks[0]), blocks[1..], b);
    }
  }

  class BlockAllocator {
    const numBlocks: nat
    var free: seq<nat>
    var refs: seq<nat>
    var handedOut: nat
    var takenBack: nat
    var peakUsed: nat
    var cowCopies: nat

    function Value(): Pool
      reads this
    {
      Pool(free, refs)
    }

    /** Blocks handed out and not yet returned are the blocks in use, never more than the peak. */
    ghost predicate Valid()
      reads this
    {
      && |refs| == numBlocks
      && FreeListOk(Value()) && |free| <= numBlocks
      && handedOut == takenBack + (numBlocks - |free|)
      && numBlocks - |free| <= peakUsed <= numBlocks
    }

    constructor (numBlocks: nat)
      ensures Valid() && this.numBlocks == numBlocks
      ensures Value() == Initial(numBlocks) && cowCopies == 0
    {
      this.numBlocks := numBlocks;
      free := Initial(numBlocks).free;
      refs := Initial(numBlocks).ref;
      handedOut, takenBack, peakUsed, cowCopies := 0, 0, 0, 0;
      new;
      InitialCounts(numBlocks);
    }

    /** A pool must have a block. */
    static method Create(numBlocks: int) returns (r: Option<BlockAllocator>)
      ensures r.Some? <==> numBlocks > 0
      ensures r.Some? ==> fresh(r.value) && r.value.Valid() && r.value.Value() == Initial(numBlocks)
    {
      if numBlocks <= 0 {
        return None;
      }
      var a := new BlockAllocator(numBlocks);
      return Some(a);
    }

    /** None is OutOfBlocks. */
    method Allocate() returns (b: Option<nat>)
      requires Valid()
      modifies this
      ensures Valid() && cowCopies == old(cowCopies)
      ensures b.Some? <==> old(free) != []
      ensures b.Some? ==> b.value == old(free)[|old(free)| - 1] && Value() == Blocks.Allocate(old(Value()))
      ensures b.None? ==> unchanged(this)
    {
      if free == [] {
        return None;
      }
      AllocateFreeList(Value());
      var block := free[|free| - 1];
      free := free[..|free| - 1];
      refs := refs[block := 1];
      handedOut := handedOut + 1;
      peakUsed := if numBlocks - |free| > peakUsed then numBlocks - |free| else peakUsed;
      return Some(block);
    }

    /** All or nothing. */
    method AllocateMany(count: nat) returns (blocks: Option<seq<nat>>)
      requires Valid()
      modifies this
      ensures Valid() && cowCopies == old(cowCopies)
      ensures blocks.Some? <==> count <= |old(free)|
      ensures blocks.Some? ==> blocks.value == NextBlocks(old(Value()), count)
      ensures blocks.Some? ==> Value() == Blocks.AllocateMany(old(Value()), count) && |free| == |old(free)| - count
      ensures blocks.None? ==> unchanged(this)
    {
      if count > |free| {
        return None;
      }
      var got := [];
      ghost var p := Value();
      for i := 0 to count
        invariant Valid() && cowCopies == old(cowCopies)
        invariant |free| == |p.free| - i && free == p.free[..|p.free| - i]
        invariant got == NextBlocks(p, i)
        invariant Blocks.AllocateMany(p, count) == Blocks.AllocateMany(Value(), count - i)
      {
        var b := Allocate();
        got := got + [b.value];
      }
      return Some(got);
    }

    /** None is an unknown or a free block; otherwise the new count. */
    method Incref(b: nat) returns (count: Option<nat>)
      requires Valid()
      modifies this
      ensures Valid() && cowCopies == old(cowCopies)
      ensures Value() == Blocks.Incref(old(Value()), b)
      ensures count == if Live(old(Value()), b) then Some(refs[b]) else None
    {
      if b >= numBlocks || refs[b] == 0 {
        return None;
      }
      refs := refs[b := refs[b] + 1];
      return Some(refs[b]);
    }

    /** None is an unknown block or a double free; otherwise the references left. */
    method Free(b: nat) returns (left: Option<nat>)
      requires Valid()
      modifies this
      ensures Valid() && cowCopies == old(cowCopies)
      ensures Value() == Blocks.Free(old(Value()), b)
      ensures left == if Live(old(Value()), b) then Some(refs[b]) else None
    {
      if b >= numBlocks || refs[b] == 0 {
        return None;
      }
      FreeFreeList(Value(), b);
      refs := refs[b := refs[b] - 1];
      if refs[b] == 0 {
        free := free + [b];
        takenBack := takenBack + 1;
        FreeFits();
      }
      return Some(refs[b]);
    }

    /** A free list without repeats is no longer than the pool. */
    lemma FreeFits()
      requires |refs| == numBlocks && FreeListOk(Value())
      ensures |free| <= numBlocks
    {
      DistinctSize(free);
      assert Members(free) <= Range(numBlocks);
      SubsetSize(Members(free), Range(numBlocks));
    }

    /** Give references up in order; false as soon as one is missing. */
    method FreeMany(blocks: seq<nat>) returns (ok: bool)
      requires Valid()
      modifies this
      ensures Valid() && cowCopies == old(cowCopies)
      ensures ok <==> AllLive(old(Value()), blocks)
      ensures ok ==> Value() == Blocks.FreeMany(old(Value()), blocks)
      ensures !ok ==> exists n :: 0 <= n < |blocks| && FreedUpTo(old(Value()), blocks, n, Value())
    {
      for i := 0 to |blocks|
        invariant Valid() && cowCopies == old(cowCopies)
        invariant AllLive(old(Value()), blocks) <==> AllLive(Value(), blocks[i..])
        invariant Value() == Blocks.FreeMany(old(Value()), blocks[..i])
      {
        assert blocks[i..][0] == blocks[i] && blocks[i..][1..] == blocks[i + 1..];
        assert blocks[..i + 1] == blocks[..i] + [blocks[i]];
        FreeManySnoc(old(Value()), blocks[..i], blocks[i]);
        var left := Free(blocks[i]);
        if left.None? {
          assert FreedUpTo(old(Value()), blocks, i, Value());
          return false;
        }
      }
      assert blocks[..|blocks|] == blocks;
      return true;
    }

    /** Take one more reference on each block; false as soon as one is free or unknown. */
    method IncrefMany(blocks: seq<nat>) returns (ok: bool)
      requires Valid()
      modifies this
      ensures Valid() && cowCopies == old(cowCopies)
      ensures ok <==> AllIncref(old(Value()), blocks)
      ensures ok ==> Value() == Blocks.IncrefMany(old(Value()), blocks)
    {
      for i := 0 to |blocks|
        invariant Valid() && cowCopies == old(cowCopies)
        invariant forall b :: Live(Value(), b) <==> Live(old(Value()), b)
        invariant forall b :: b in blocks[..i] ==> Live(old(Value()), b)
        invariant Blocks.IncrefMany(old(Value()), blocks) == Blocks.IncrefMany(Value(), blocks[i..])
      {
        assert blocks[i..][0] == blocks[i] && blocks[i..][1..] == blocks[i + 1..];
        assert blocks[i] in blocks;
        var count := Incref(blocks[i]);
        if count.None? {
          return false;
        }
      }
      assert blocks[..|blocks|] == blocks;
      return true;
    }

    method IsShared(b: nat) returns (shared: Option<bool>)
      requires Valid()
      ensures shared == if b < numBlocks then Some(refs[b] > 1) else None
    {
      return if b < numBlocks then Some(refs[b] > 1) else None;
    }

    /**
     Copy-on-write: a block with more than one reference is exchanged for a spare
     one, and the copy is counted. None is an unknown block or OutOfBlocks.
     */
    method PrepareForWrite(b: nat) returns (r: Option<(nat, bool)>)
      requires Valid()
      modifies this
      ensures Valid()
      ensures r.Some? <==> b < numBlocks && (old(refs)[b] > 1 ==> old(free) != [])
      ensures r.Some? && r.value.1 ==> cowCopies == old(cowCopies) + 1 && old(refs)[b] > 1
      ensures r.Some? && r.value.1 ==> r.value.0 == old(free)[|old(free)| - 1]
      ensures r.Some? && r.value.1 ==> Value() == Blocks.Free(Blocks.Allocate(old(Value())), b)
      ensures r.Some? && !r.value.1 ==> r.value.0 == b && old(refs)[b] <= 1
      ensures r.None? || !r.value.1 ==> unchanged(this)
      ensures cowCopies + |free| == old(cowCopies) + |old(free)|
    {
      var shared := IsShared(b);
      if shared.None? {
        return None;
      }
      if !shared.value {
        return Some((b, false));
      }
      var spare := Allocate();
      if spare.None? {
        return None;
      }
      var left := Free(b);
      cowCopies := cowCopies + 1;
      return Some((spare.value, true));
    }
  }

  lemma SubsetSize(a: set<nat>, b: set<nat>)
    requires a <= b
    ensures |a| <= |b|
  {
    assert b == a + (b - a);
  }
}
