/** What the prefix cache promises: longest match, exact LRU eviction, counted references. */
module RadixLaws {
  import opened Numbers
  import opened Blocks
  import opened Decoding
  import opened Radix

  // ---- lookup

  lemma {:induction false} ChunksPrefix(bs: nat, toks: seq<Token>, k: nat, n: nat)
    requires n <= k && k * bs <= |toks|
    ensures n * bs <= |toks|
    ensures Chunks(bs, toks, k)[..n] == Chunks(bs, toks, n)
    decreases k
  {
    MulMono(n, k, bs);
    if n < k {
      MulMono(k - 1, k, bs);
      ChunksPrefix(bs, toks, k - 1, n);
    }
  }

  lemma {:induction false} ClosedPrefixes(nodes: map<Path, Node>, p: Path, n: nat)
    requires PrefixClosed(nodes) && p in nodes && 0 < n <= |p|
    ensures p[..n] in nodes
    decreases |p|
  {
    if n == |p| {
      assert p[..n] == p;
    } else {
      ClosedPrefixes(nodes, Parent(p), n);
      assert Parent(p)[..n] == p[..n];
    }
  }

  /** A lookup returns the longest cached prefix that leaves a token to run, and its blocks. */
  lemma MatchIsLongest(bs: nat, t: Tree, toks: seq<Token>, k: nat)
    requires bs > 0 && PrefixClosed(t.nodes)
    requires 0 < k && k * bs < |toks|
    ensures Chunks(bs, toks, k) in t.nodes <==> k <= MatchDepth(bs, t, toks)
    ensures k <= MatchDepth(bs, t, toks) ==> MatchBlocks(bs, t, toks)[k - 1] == t.nodes[Chunks(bs, toks, k)].block
  {
    var path, d, u := Usable(bs, toks), MatchDepth(bs, t, toks), (|toks| - 1) / bs;
    PageAtLeast(|toks| - 1, k, bs);
    ChunksPrefix(bs, toks, u, k);
    assert path[..k] == Chunks(bs, toks, k);
    if path[..k] in t.nodes {
      forall n | 0 < n <= k
        ensures path[..n] in t.nodes
      {
        ClosedPrefixes(t.nodes, path[..k], n);
        assert path[..k][..n] == path[..n];
      }
    }
  }

  /** A lookup never uses up the query. */
  lemma MatchLeavesAToken(bs: nat, t: Tree, toks: seq<Token>)
    requires bs > 0 && toks != []
    ensures MatchDepth(bs, t, toks) * bs < |toks|
  {
    var u := (|toks| - 1) / bs;
    MulMono(MatchDepth(bs, t, toks), u, bs);
  }

  /** A prefix of the query, in whole blocks, that leaves a token to run. */
  ghost predicate OfQuery(bs: nat, toks: seq<Token>, p: Path) {
    0 < |p| && |p| * bs < |toks| && p == Chunks(bs, toks, |p|)
  }

  /** A lookup makes the cached prefixes of its query, and no other node, the most recent of all. */
  lemma MatchStamps(bs: nat, t: Tree, toks: seq<Token>, p: Path)
    requires bs > 0 && PrefixClosed(t.nodes)
    ensures var t' := MatchTree(bs, t, toks);
      && (p in t'.nodes <==> p in t.nodes)
      && (p in t.nodes ==>
            t'.nodes[p] == if OfQuery(bs, toks, p) then t.nodes[p].(last := t.clock + 1) else t.nodes[p])
  {
    if p in t.nodes {
      MatchedIsOfQuery(bs, t, toks, p);
    }
    hide Usable, MatchDepth, OfQuery;
  }

  lemma MatchedIsOfQuery(bs: nat, t: Tree, toks: seq<Token>, p: Path)
    requires bs > 0 && PrefixClosed(t.nodes) && p in t.nodes
    ensures p <= Usable(bs, toks)[..MatchDepth(bs, t, toks)] <==> OfQuery(bs, toks, p)
  {
    var path, d := Usable(bs, toks), MatchDepth(bs, t, toks);
    assert p != [];
    if OfQuery(bs, toks, p) {
      MatchIsLongest(bs, t, toks, |p|);
      UsablePrefix(bs, toks, |p|);
      hide *;
      assert path[..d][..|p|] == path[..|p|];
    } else if p <= path[..d] {
      MatchLeavesAToken(bs, t, toks);
      MulMono(|p|, d, bs);
      UsablePrefix(bs, toks, |p|);
    }
  }

  lemma UsablePrefix(bs: nat, toks: seq<Token>, k: nat)
    requires bs > 0 && toks != [] && k * bs < |toks|
    ensures k <= |Usable(bs, toks)| && Usable(bs, toks)[..k] == Chunks(bs, toks, k)
  {
    var u := (|toks| - 1) / bs;
    PageAtLeast(|toks| - 1, k, bs);
    MulMono(k, u, bs);
    ChunksPrefix(bs, toks, u, k);
  }

  // ---- eviction

  /** References: `others` by block tables, one more by each trie node. */
  ghost predicate CacheCounts(c: Cache, others: multiset<nat>) {
    Counts(c.pool, others + multiset(NodeBlocks(c.tree.nodes)))
  }

  lemma RemoveBlocks(c: Cache, p: Path)
    requires OneBlockEach(c.tree.nodes) && p in c.tree.nodes
    ensures NodeBlocks(Remove(c, p).tree.nodes) == NodeBlocks(c.tree.nodes) - {c.tree.nodes[p].block}
    ensures c.tree.nodes[p].block in NodeBlocks(c.tree.nodes)
  {
    var nodes, nodes' := c.tree.nodes, Remove(c, p).tree.nodes;
    forall b | b in NodeBlocks(nodes) && b != nodes[p].block
      ensures b in NodeBlocks(nodes')
    {
      var q :| q in nodes && nodes[q].block == b;
      assert q in nodes';
    }
  }

  lemma RemoveCounts(c: Cache, p: Path, others: multiset<nat>)
    requires TreeOk(c.tree) && CacheCounts(c, others) && p in c.tree.nodes
    ensures CacheCounts(Remove(c, p), others)
    ensures c.pool.free <= Remove(c, p).pool.free && |Remove(c, p).pool.ref| == |c.pool.ref|
    ensures c.tree.nodes[p].block < |c.pool.ref|
  {
    hide PrefixClosed, Aged, StampedTogether;
    var b, bs := c.tree.nodes[p].block, NodeBlocks(c.tree.nodes);
    RemoveBlocks(c, p);
    assert b in others + multiset(bs);
    FreeCounts(c.pool, b, others + multiset(bs));
    assert others + multiset(bs) - multiset{b} == others + multiset(bs - {b});
  }

  /** Removing a node changes no other node and no other node's pin. */
  lemma RemoveLeavesOthers(c: Cache, p: Path, q: Path)
    requires OneBlockEach(c.tree.nodes) && p in c.tree.nodes && q in c.tree.nodes && q != p
    ensures q in Remove(c, p).tree.nodes && Remove(c, p).tree.nodes[q] == c.tree.nodes[q]
    ensures Pinned(Remove(c, p), q) == Pinned(c, q)
  {
  }

  /** Whoever is pinned has a pinned parent: sequences share whole prefixes. */
  ghost predicate PinClosed(c: Cache) {
    forall p {:trigger Parent(p)} :: p in c.tree.nodes && |p| > 1 && Parent(p) in c.tree.nodes && Pinned(c, p)
      ==> Pinned(c, Parent(p))
  }

  /** Below every unpinned node there is an unpinned leaf at most as fresh. */
  lemma {:induction false} LeafBelow(c: Cache, q: Path) returns (r: Path)
    requires TreeOk(c.tree) && PinClosed(c) && q in Unpinned(c)
    ensures Evictable(c, r) && c.tree.nodes[r].last <= c.tree.nodes[q].last
    decreases set x | x in c.tree.nodes && |x| > |q|
  {
    hide StampedTogether, OneBlockEach;
    var nodes := c.tree.nodes;
    if IsLeaf(nodes, q) {
      r := q;
    } else {
      var child :| child in nodes && |child| == |q| + 1 && child[..|q|] == q;
      assert Parent(child) == q;
      var deeper, deepest := set x | x in nodes && |x| > |q|, set x | x in nodes && |x| > |child|;
      assert deepest <= deeper && child in deeper && child !in deepest;
      r := LeafBelow(c, child);
    }
  }

  /** The leaf taken is the least recently used of all unpinned nodes, not just of the leaves. */
  lemma VictimIsOldest(c: Cache)
    requires TreeOk(c.tree) && PinClosed(c)
    ensures Victim(c).Some? <==> Unpinned(c) != {}
    ensures Victim(c).Some? ==>
      forall q :: q in Unpinned(c) ==> c.tree.nodes[Victim(c).value].last <= c.tree.nodes[q].last
  {
    hide TreeOk, PinClosed;
    forall q | q in Unpinned(c)
      ensures Victim(c).Some? && c.tree.nodes[Victim(c).value].last <= c.tree.nodes[q].last
    {
      var r := LeafBelow(c, q);
    }
    if Victim(c).Some? {
      assert Victim(c).value in Unpinned(c);
    }
  }

  /** The nodes Evict(c, k) takes, in order. */
  ghost function Victims(c: Cache, k: nat): seq<Path>
    decreases k
  {
    if k == 0 then [] else
      match Victim(c)
      case None => []
      case Some(p) => [p] + Victims(Remove(c, p), k - 1)
  }

  lemma EvictStep(c: Cache, k: nat)
    ensures k == 0 || Victim(c).None? ==> Evict(c, k) == c && Victims(c, k) == []
    ensures k > 0 && Victim(c).Some? ==>
      && Evict(c, k) == Evict(Remove(c, Victim(c).value), k - 1)
      && Victims(c, k) == [Victim(c).value] + Victims(Remove(c, Victim(c).value), k - 1)
  {
    hide Victim, Remove, IsLru, Evictable;
  }

  ghost function Min(a: nat, b: nat): nat { if a < b then a else b }

  /** vs lists distinct members of u, oldest first, and leaves only members at least as fresh. */
  ghost predicate TakesOldest(nodes: map<Path, Node>, vs: seq<Path>, u: set<Path>)
    requires u <= nodes.Keys
  {
    && (forall i :: 0 <= i < |vs| ==> vs[i] in u)
    && (forall i, j :: 0 <= i < j < |vs| ==> vs[i] != vs[j] && nodes[vs[i]].last <= nodes[vs[j]].last)
    && (forall i, q :: 0 <= i < |vs| && q in u && q !in vs ==> nodes[vs[i]].last <= nodes[q].last)
  }

  lemma TakesOldestCons(nodes: map<Path, Node>, nodes': map<Path, Node>, p: Path, vs: seq<Path>, u: set<Path>)
    requires u <= nodes.Keys && u - {p} <= nodes'.Keys && p in u
    requires forall q :: q in u ==> nodes[p].last <= nodes[q].last
    requires forall q :: q in u && q != p ==> nodes'[q] == nodes[q]
    requires TakesOldest(nodes', vs, u - {p})
    ensures TakesOldest(nodes, [p] + vs, u)
  {
    var all := [p] + vs;
    forall i, q | 0 <= i < |all| && q in u && q !in all
      ensures nodes[all[i]].last <= nodes[q].last
    {
      assert all[0] == p;
      assert forall j :: 0 <= j < |vs| ==> all[j + 1] == vs[j];
      assert q !in vs;
      if i > 0 {
        assert all[i] == vs[i - 1];
      }
    }
  }

  lemma RemovePins(c: Cache, p: Path)
    requires TreeOk(c.tree) && PinClosed(c) && IsLeaf(c.tree.nodes, p) && !Pinned(c, p)
    ensures PinClosed(Remove(c, p))
    ensures Unpinned(Remove(c, p)) == Unpinned(c) - {p} && p in Unpinned(c)
  {
    hide StampedTogether, Aged;
    var c' := Remove(c, p);
    forall q | q in c.tree.nodes && q != p
      ensures q in c'.tree.nodes && Pinned(c', q) == Pinned(c, q)
    {
      RemoveLeavesOthers(c, p, q);
    }
  }

  /**
   Eviction is complete and truly LRU: with ancestor-closed pins it takes exactly
   min(k, unpinned) nodes, oldest first, and every unpinned node it leaves is at
   least as fresh as every node it took.
   */
  lemma {:induction false} EvictExact(c: Cache, k: nat)
    requires TreeOk(c.tree) && PinClosed(c)
    ensures |Victims(c, k)| == Min(k, |Unpinned(c)|)
    ensures TakesOldest(c.tree.nodes, Victims(c, k), Unpinned(c))
    decreases k
  {
    hide TreeOk, PinClosed, Victim, Evict, Victims, Pinned, Remove;
    EvictStep(c, k);
    VictimIsOldest(c);
    if k > 0 && Victim(c).Some? {
      var p := Victim(c).value;
      var c' := Remove(c, p);
      RemoveKeepsTree(c, p);
      RemovePins(c, p);
      RemoveNodes(c, p);
      EvictExact(c', k - 1);
      hide TakesOldest, IsLru, Evictable;
      assert |Unpinned(c')| == |Unpinned(c)| - 1;
      TakesOldestCons(c.tree.nodes, c'.tree.nodes, p, Victims(c', k - 1), Unpinned(c));
    }
  }

  lemma RemoveNodes(c: Cache, p: Path)
    requires p in c.tree.nodes
    ensures Remove(c, p).tree.nodes == c.tree.nodes - {p}
    ensures Remove(c, p).tree.cached == c.tree.cached - 1
  {
  }

  ghost function Set(vs: seq<Path>): set<Path> { set p | p in vs }

  lemma ShrinkUnpinned(c: Cache, p: Path)
    requires TreeOk(c.tree) && p in c.tree.nodes
    ensures Unpinned(Remove(c, p)) <= Unpinned(c)
  {
    hide PrefixClosed, Aged, StampedTogether;
    forall q | q in Unpinned(Remove(c, p))
      ensures q in Unpinned(c)
    {
      RemoveLeavesOthers(c, p, q);
    }
  }

  /** Eviction removes the victims and nothing else, whatever is pinned. */
  lemma {:induction false} EvictRemovesVictims(c: Cache, k: nat)
    requires TreeOk(c.tree)
    ensures Evict(c, k).tree.nodes == c.tree.nodes - Set(Victims(c, k))
    ensures TreeOk(Evict(c, k).tree)
    ensures Set(Victims(c, k)) <= Unpinned(c)
    decreases k
  {
    hide TreeOk, Victim, Evict, Victims, Remove;
    EvictStep(c, k);
    if k > 0 && Victim(c).Some? {
      var p := Victim(c).value;
      var c' := Remove(c, p);
      assert IsLru(c, p);
      RemoveKeepsTree(c, p);
      RemoveNodes(c, p);
      ShrinkUnpinned(c, p);
      EvictRemovesVictims(c', k - 1);
      assert Set(Victims(c, k)) == {p} + Set(Victims(c', k - 1));
    }
  }

  /** Every block evicted goes back to the free list, and references stay counted. */
  lemma {:induction false} EvictCounts(c: Cache, k: nat, others: multiset<nat>)
    requires TreeOk(c.tree) && CacheCounts(c, others)
    ensures CacheCounts(Evict(c, k), others)
    ensures |Evict(c, k).pool.free| == |c.pool.free| + |Victims(c, k)|
    ensures |Evict(c, k).pool.ref| == |c.pool.ref|
    ensures Evict(c, k).tree.cached == c.tree.cached - |Victims(c, k)|
    decreases k
  {
    hide TreeOk, CacheCounts, Victim, Evict, Victims, Remove;
    EvictStep(c, k);
    if k > 0 && Victim(c).Some? {
      var p := Victim(c).value;
      var c' := Remove(c, p);
      assert IsLru(c, p);
      RemoveKeepsTree(c, p);
      RemoveNodes(c, p);
      RemoveCounts(c, p, others);
      RemoveFreesOne(c, p);
      EvictCounts(c', k - 1, others);
    }
  }

  lemma RemoveFreesOne(c: Cache, p: Path)
    requires p in c.tree.nodes && !Pinned(c, p)
    ensures |Remove(c, p).pool.free| == |c.pool.free| + 1
  {
  }

  /** Eviction that falls short has no unpinned leaf left to take. */
  lemma {:induction false} EvictStops(c: Cache, k: nat)
    ensures |Victims(c, k)| <= k
    ensures |Victims(c, k)| < k ==> forall p :: !Evictable(Evict(c, k), p)
    decreases k
  {
    hide Victim, Evict, Victims, Remove;
    EvictStep(c, k);
    if k > 0 && Victim(c).Some? {
      assert IsLru(c, Victim(c).value);
      hide Evictable;
      EvictStops(Remove(c, Victim(c).value), k - 1);
    }
  }

  // ---- insertion

  lemma InsertOneCounts(c: Cache, path: Path, blocks: seq<nat>, i: nat, now: nat, others: multiset<nat>)
    requires i < |path| <= |blocks| && CacheCounts(c, others) && blocks[i] in others
    requires path[..i + 1] !in c.tree.nodes ==> blocks[i] !in NodeBlocks(c.tree.nodes)
    ensures CacheCounts(InsertOne(c, path, blocks, i, now), others)
    ensures |InsertOne(c, path, blocks, i, now).pool.ref| == |c.pool.ref|
    ensures InsertOne(c, path, blocks, i, now).pool.free == c.pool.free
  {
    InsertOneBlocks(c, path, blocks, i, now);
    var b, bs := blocks[i], NodeBlocks(c.tree.nodes);
    if path[..i + 1] !in c.tree.nodes {
      assert b in others + multiset(bs);
      IncrefCounts(c.pool, b, others + multiset(bs));
      hide NodeBlocks;
      assert others + multiset(bs) + multiset{b} == others + multiset(bs + {b});
    } else {
      assert bs + {} == bs;
    }
  }

  lemma {:induction false} InsertFromCounts(c: Cache, path: Path, blocks: seq<nat>, i: nat, now: nat,
                                            others: multiset<nat>)
    requires i <= |path| <= |blocks| && CacheCounts(c, others)
    requires Unregistered(c.tree.nodes, path, blocks, i)
    requires forall a, b :: 0 <= a < b < |path| ==> blocks[a] != blocks[b]
    requires forall a :: 0 <= a < |path| ==> blocks[a] in others
    ensures CacheCounts(InsertFrom(c, path, blocks, i, now), others)
    ensures InsertFrom(c, path, blocks, i, now).pool.free == c.pool.free
    ensures |InsertFrom(c, path, blocks, i, now).pool.ref| == |c.pool.ref|
    decreases |path| - i
  {
    if i < |path| {
      var c' := InsertOne(c, path, blocks, i, now);
      InsertOneUnregistered(c, path, blocks, i, now);
      InsertOneCounts(c, path, blocks, i, now, others);
      hide Unregistered, CacheCounts;
      InsertFromCounts(c', path, blocks, i + 1, now, others);
    }
  }

  /** Where the trie's nodes are after an insertion, and with which blocks. */
  lemma {:induction false} InsertFromNodes(c: Cache, path: Path, blocks: seq<nat>, i: nat, now: nat, p: Path)
    requires i <= |path| <= |blocks|
    ensures var nodes, nodes' := c.tree.nodes, InsertFrom(c, path, blocks, i, now).tree.nodes;
      && (p in nodes' <==> p in nodes || (p <= path && i < |p|))
      && (p in nodes ==> nodes'[p].block == nodes[p].block)
      && (p in nodes' && p !in nodes ==> p <= path && i < |p| && nodes'[p].block == blocks[|p| - 1])
    decreases |path| - i
  {
    if i < |path| {
      InsertFromNodes(InsertOne(c, path, blocks, i, now), path, blocks, i + 1, now, p);
      assert p <= path && |p| == i + 1 ==> p == path[..i + 1];
      assert path[..i + 1] <= path;
    }
  }

  /** An insertion makes the nodes on its path, and no other, the most recent of all. */
  lemma {:induction false} InsertStamps(c: Cache, path: Path, blocks: seq<nat>, i: nat, now: nat, p: Path)
    requires i <= |path| <= |blocks|
    ensures var nodes, nodes' := c.tree.nodes, InsertFrom(c, path, blocks, i, now).tree.nodes;
      && (p <= path && i < |p| ==> p in nodes' && nodes'[p].last == now)
      && (!(p <= path && i < |p|) && p in nodes ==> p in nodes' && nodes'[p].last == nodes[p].last)
    decreases |path| - i
  {
    if i < |path| {
      InsertStamps(InsertOne(c, path, blocks, i, now), path, blocks, i + 1, now, p);
      assert p <= path && |p| == i + 1 ==> p == path[..i + 1];
      assert path[..i + 1] <= path;
    }
  }

  /** No more than k nodes go. */
  lemma {:induction false} VictimsAtMost(c: Cache, k: nat)
    ensures |Victims(c, k)| <= k
    decreases k
  {
    hide *;
    EvictStep(c, k);
    if k > 0 && Victim(c).Some? {
      VictimIn(c);
      VictimsAtMost(Remove(c, Victim(c).value), k - 1);
    }
  }

  lemma VictimIn(c: Cache)
    requires Victim(c).Some?
    ensures Victim(c).value in c.tree.nodes
  {
    hide Victim;
  }

  ghost predicate EveryLeafPinned(c: Cache) {
    forall p :: IsLeaf(c.tree.nodes, p) ==> Pinned(c, p)
  }

  /** Enforcing a cap ends within it, or with every leaf in use. */
  lemma EvictCapped(c: Cache, k: nat, others: multiset<nat>)
    requires TreeOk(c.tree) && CacheCounts(c, others)
    ensures Evict(c, k).tree.cached <= c.tree.cached - k || EveryLeafPinned(Evict(c, k))
  {
    hide *;
    EvictStops(c, k);
    EvictCounts(c, k, others);
    if |Victims(c, k)| < k {
      NoneEvictable(Evict(c, k));
    }
  }

  lemma NoneEvictable(c: Cache)
    requires forall p :: !Evictable(c, p)
    ensures EveryLeafPinned(c)
  {
    forall p | IsLeaf(c.tree.nodes, p)
      ensures Pinned(c, p)
    {
      assert !Evictable(c, p);
    }
  }
}
