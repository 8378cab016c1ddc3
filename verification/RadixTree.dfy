/**
 The prefix cache as a value: a trie over block-sized chunks of tokens. A node
 is named by its root path, the chunks on the edges from the root to it, so the
 trie is a prefix-closed map from paths to nodes.
 */
module Radix {
  import opened Numbers
  import opened Blocks
  import opened Decoding
  import opened Options

  /** The tokens of one block. */
  type Chunk = seq<Token>
  type Path = seq<Chunk>

  datatype Node = Node(block: nat, last: nat)

  /** `clock` is the last timestamp given out; `cached` is the block counter kept beside the trie. */
  datatype Tree = Tree(nodes: map<Path, Node>, clock: nat, cached: int)

  /** The trie and the allocator it holds references in. */
  datatype Cache = Cache(tree: Tree, pool: Pool)

  const EmptyTree := Tree(map[], 0, 0)

  function Parent(p: Path): Path
    requires p != []
  {
    p[..|p| - 1]
  }

  /** The first k block-sized chunks of toks. */
  function Chunks(bs: nat, toks: seq<Token>, k: nat): (path: Path)
    requires k * bs <= |toks|
    ensures |path| == k
  {
    if k == 0 then [] else
      assert (k - 1) * bs + bs == k * bs;
      Chunks(bs, toks, k - 1) + [toks[(k - 1) * bs..k * bs]]
  }

  // ---- lookup

  /** How far the trie follows a path, starting at depth j. */
  function Follow(nodes: map<Path, Node>, path: Path, j: nat): (d: nat)
    requires j <= |path|
    ensures j <= d <= |path|
    ensures forall n :: j < n <= d ==> path[..n] in nodes
    ensures d < |path| ==> path[..d + 1] !in nodes
    decreases |path| - j
  {
    if j < |path| && path[..j + 1] in nodes then Follow(nodes, path, j + 1) else j
  }

  /** Stamp every node on a path with time `now`. */
  function Stamp(nodes: map<Path, Node>, path: Path, now: nat): map<Path, Node> {
    map p | p in nodes :: if p <= path then nodes[p].(last := now) else nodes[p]
  }

  /** The chunks a lookup may use: never the whole query. */
  function Usable(bs: nat, toks: seq<Token>): (path: Path)
    requires bs > 0
  {
    var k := (if |toks| == 0 then 0 else |toks| - 1) / bs;
    Chunks(bs, toks, k)
  }

  function MatchDepth(bs: nat, t: Tree, toks: seq<Token>): nat
    requires bs > 0
  {
    Follow(t.nodes, Usable(bs, toks), 0)
  }

  /** The blocks of the longest cached prefix, in order. */
  function MatchBlocks(bs: nat, t: Tree, toks: seq<Token>): (blocks: seq<nat>)
    requires bs > 0
    ensures |blocks| == MatchDepth(bs, t, toks)
  {
    var path, d := Usable(bs, toks), MatchDepth(bs, t, toks);
    seq(d, i requires 0 <= i < d => t.nodes[path[..i + 1]].block)
  }

  /** What a lookup does to the trie: the matched nodes become the most recent. */
  function MatchTree(bs: nat, t: Tree, toks: seq<Token>): Tree
    requires bs > 0
  {
    var path, d := Usable(bs, toks), MatchDepth(bs, t, toks);
    t.(nodes := Stamp(t.nodes, path[..d], t.clock + 1), clock := t.clock + 1)
  }

  // ---- eviction

  predicate IsLeaf(nodes: map<Path, Node>, p: Path) {
    p in nodes && forall q :: q in nodes && |q| == |p| + 1 ==> q[..|p|] != p
  }

  predicate Pinned(c: Cache, p: Path)
    requires p in c.tree.nodes
  {
    var b := c.tree.nodes[p].block;
    b >= |c.pool.ref| || c.pool.ref[b] != 1
  }

  predicate Evictable(c: Cache, p: Path) {
    IsLeaf(c.tree.nodes, p) && !Pinned(c, p)
  }

  ghost predicate IsLru(c: Cache, p: Path) {
    && Evictable(c, p)
    && forall q :: Evictable(c, q) ==> c.tree.nodes[p].last <= c.tree.nodes[q].last
  }

  ghost function Unpinned(c: Cache): set<Path> {
    set p | p in c.tree.nodes && !Pinned(c, p)
  }

  lemma {:induction false} OldestOf(c: Cache, ps: set<Path>) returns (p: Path)
    requires ps != {} && forall q :: q in ps ==> q in c.tree.nodes
    ensures p in ps && forall q :: q in ps ==> c.tree.nodes[p].last <= c.tree.nodes[q].last
    decreases |ps|
  {
    p :| p in ps;
    if ps != {p} {
      var rest := ps - {p};
      assert rest != {};
      var q := OldestOf(c, rest);
      if c.tree.nodes[q].last < c.tree.nodes[p].last {
        p := q;
      }
    }
  }

  lemma LruExists(c: Cache)
    requires exists p :: Evictable(c, p)
    ensures exists p :: IsLru(c, p)
  {
    var ps := set p | p in c.tree.nodes && Evictable(c, p);
    var q :| Evictable(c, q);
    assert q in ps;
    var p := OldestOf(c, ps);
    assert IsLru(c, p);
  }

  /** The least recently used leaf that only the cache holds, if there is one. */
  ghost function Victim(c: Cache): (v: Option<Path>)
    ensures v.Some? ==> IsLru(c, v.value)
    ensures v.None? ==> forall p :: !Evictable(c, p)
  {
    if p :| Evictable(c, p) then
      LruExists(c);
      var p :| IsLru(c, p); Some(p)
    else None
  }

  /** Drop a node and the cache's reference to its block. */
  function Remove(c: Cache, p: Path): Cache
    requires p in c.tree.nodes
  {
    Cache(c.tree.(nodes := c.tree.nodes - {p}, cached := c.tree.cached - 1), Free(c.pool, c.tree.nodes[p].block))
  }

  /** Evict up to k least recently used unpinned leaves, one by one. */
  ghost function Evict(c: Cache, k: nat): Cache
    decreases k
  {
    if k == 0 then c else
      match Victim(c)
      case None => c
      case Some(p) => Evict(Remove(c, p), k - 1)
  }

  ghost function EvictTo(c: Cache, target: nat): Cache {
    if c.tree.cached > target then Evict(c, c.tree.cached - target) else c
  }

  // ---- insertion

  /** Register path[i..] with its blocks; nodes already there keep their block. */
  function InsertFrom(c: Cache, path: Path, blocks: seq<nat>, i: nat, now: nat): Cache
    requires i <= |path| <= |blocks|
    decreases |path| - i
  {
    if i == |path| then c else
      var p, t := path[..i + 1], c.tree;
      var c' := if p in t.nodes
                then c.(tree := t.(nodes := t.nodes[p := t.nodes[p].(last := now)]))
                else Cache(t.(nodes := t.nodes[p := Node(blocks[i], now)], cached := t.cached + 1),
                  Incref(c.pool, blocks[i]));
      InsertFrom(c', path, blocks, i + 1, now)
  }

  function InsertPath(bs: nat, toks: seq<Token>, blocks: seq<nat>): (path: Path)
    requires bs > 0
    ensures |path| <= |blocks|
  {
    var k := if |blocks| < |toks| / bs then |blocks| else |toks| / bs;
    MulMono(k, |toks| / bs, bs);
    Chunks(bs, toks, k)
  }

  /** Insertion before the cap is enforced. */
  function Register(bs: nat, c: Cache, toks: seq<Token>, blocks: seq<nat>): Cache
    requires bs > 0
  {
    var now := c.tree.clock + 1;
    InsertFrom(c.(tree := c.tree.(clock := now)), InsertPath(bs, toks, blocks), blocks, 0, now)
  }

  ghost function Insert(bs: nat, c: Cache, toks: seq<Token>, blocks: seq<nat>, maxBlocks: nat): Cache
    requires bs > 0
  {
    EvictTo(Register(bs, c, toks, blocks), maxBlocks)
  }

  // ---- the representation invariant

  ghost predicate PrefixClosed(nodes: map<Path, Node>) {
    && [] !in nodes
    && (forall p {:trigger Parent(p)} :: p in nodes && |p| > 1 ==> Parent(p) in nodes)
  }

  /** A child is never fresher than its parent, and nothing is fresher than the clock. */
  ghost predicate Aged(t: Tree) {
    && (forall p :: p in t.nodes ==> t.nodes[p].last <= t.clock)
    && (forall p {:trigger Parent(p)} :: p in t.nodes && |p| > 1 && Parent(p) in t.nodes ==>
          t.nodes[p].last <= t.nodes[Parent(p)].last)
  }

  /** Nodes stamped by one call lie on one root path. */
  ghost predicate StampedTogether(t: Tree) {
    forall p, q :: p in t.nodes && q in t.nodes && t.nodes[p].last == t.nodes[q].last ==> p <= q || q <= p
  }

  ghost predicate OneBlockEach(nodes: map<Path, Node>) {
    forall p, q :: p in nodes && q in nodes && nodes[p].block == nodes[q].block ==> p == q
  }

  ghost predicate TreeOk(t: Tree) {
    && PrefixClosed(t.nodes)
    && Aged(t)
    && StampedTogether(t)
    && OneBlockEach(t.nodes)
    && t.cached == |t.nodes|
  }

  ghost function NodeBlocks(nodes: map<Path, Node>): set<nat> {
    set p | p in nodes :: nodes[p].block
  }

  // ---- the invariant is kept

  lemma RemoveKeepsTree(c: Cache, p: Path)
    requires TreeOk(c.tree) && IsLeaf(c.tree.nodes, p)
    ensures TreeOk(Remove(c, p).tree)
  {
    var nodes, nodes' := c.tree.nodes, Remove(c, p).tree.nodes;
    forall q | q in nodes' && |q| > 1
      ensures Parent(q) in nodes'
    {
      assert q[..|q| - 1] == Parent(q);
    }
    assert nodes'.Keys == nodes.Keys - {p};
  }

  lemma StampFacts(nodes: map<Path, Node>, path: Path, now: nat)
    ensures var nodes' := Stamp(nodes, path, now);
      && nodes'.Keys == nodes.Keys && |nodes'| == |nodes|
      && NodeBlocks(nodes') == NodeBlocks(nodes)
      && (PrefixClosed(nodes) ==> PrefixClosed(nodes'))
      && (OneBlockEach(nodes) ==> OneBlockEach(nodes'))
  {
    var nodes' := Stamp(nodes, path, now);
    assert nodes'.Keys == nodes.Keys;
    forall b | b in NodeBlocks(nodes)
      ensures b in NodeBlocks(nodes')
    {
      var p :| p in nodes && nodes[p].block == b;
      assert p in nodes' && nodes'[p].block == b;
    }
  }

  lemma StampAged(t: Tree, path: Path)
    requires PrefixClosed(t.nodes) && Aged(t)
    ensures Aged(t.(nodes := Stamp(t.nodes, path, t.clock + 1), clock := t.clock + 1))
  {
    var nodes := Stamp(t.nodes, path, t.clock + 1);
    forall p | p in nodes && |p| > 1 && Parent(p) in nodes
      ensures nodes[p].last <= nodes[Parent(p)].last
    {
      if p <= path {
        assert Parent(p) <= path;
      }
    }
  }

  lemma StampKeepsTree(t: Tree, path: Path)
    requires TreeOk(t)
    ensures TreeOk(t.(nodes := Stamp(t.nodes, path, t.clock + 1), clock := t.clock + 1))
  {
    StampFacts(t.nodes, path, t.clock + 1);
    StampAged(t, path);
    hide PrefixClosed, OneBlockEach, NodeBlocks;
  }

  lemma MatchKeepsTree(bs: nat, t: Tree, toks: seq<Token>)
    requires bs > 0 && TreeOk(t)
    ensures TreeOk(MatchTree(bs, t, toks))
    ensures NodeBlocks(MatchTree(bs, t, toks).nodes) == NodeBlocks(t.nodes)
  {
    hide TreeOk, NodeBlocks, Usable, Stamp, PrefixClosed, OneBlockEach;
    var path := Usable(bs, toks)[..MatchDepth(bs, t, toks)];
    StampKeepsTree(t, path);
    StampFacts(t.nodes, path, t.clock + 1);
  }

  /** Mid-insertion: the nodes stamped now are the part of the path done so far. */
  ghost predicate Inserting(t: Tree, path: Path, i: nat, now: nat)
    requires i <= |path|
  {
    && TreeOk(t) && t.clock == now
    && (i > 0 ==> path[..i] in t.nodes && t.nodes[path[..i]].last == now)
    && (forall p :: p in t.nodes && t.nodes[p].last == now ==> p <= path[..i])
  }

  /** The blocks about to be registered are not in the trie yet. */
  ghost predicate Unregistered(nodes: map<Path, Node>, path: Path, blocks: seq<nat>, i: nat)
    requires |path| <= |blocks|
  {
    forall n :: i < n <= |path| && path[..n] !in nodes ==> blocks[n - 1] !in NodeBlocks(nodes)
  }

  function InsertOne(c: Cache, path: Path, blocks: seq<nat>, i: nat, now: nat): Cache
    requires i < |path| <= |blocks|
  {
    var p, t := path[..i + 1], c.tree;
    if p in t.nodes
    then c.(tree := t.(nodes := t.nodes[p := t.nodes[p].(last := now)]))
    else Cache(t.(nodes := t.nodes[p := Node(blocks[i], now)], cached := t.cached + 1), Incref(c.pool, blocks[i]))
  }

  lemma InsertOneBlocks(c: Cache, path: Path, blocks: seq<nat>, i: nat, now: nat)
    requires i < |path| <= |blocks|
    ensures var c' := InsertOne(c, path, blocks, i, now);
      NodeBlocks(c'.tree.nodes) ==
        NodeBlocks(c.tree.nodes) + if path[..i + 1] in c.tree.nodes then {} else {blocks[i]}
  {
    var p, nodes, nodes' := path[..i + 1], c.tree.nodes, InsertOne(c, path, blocks, i, now).tree.nodes;
    forall b | b in NodeBlocks(nodes)
      ensures b in NodeBlocks(nodes')
    {
      var q :| q in nodes && nodes[q].block == b;
      assert q in nodes' && nodes'[q].block == b;
    }
    assert p in nodes';
  }

  lemma InsertOneShape(c: Cache, path: Path, blocks: seq<nat>, i: nat, now: nat)
    requires i < |path| <= |blocks| && Inserting(c.tree, path, i, now)
    requires path[..i + 1] !in c.tree.nodes ==> blocks[i] !in NodeBlocks(c.tree.nodes)
    ensures var t' := InsertOne(c, path, blocks, i, now).tree;
      PrefixClosed(t'.nodes) && OneBlockEach(t'.nodes) && t'.cached == |t'.nodes|
  {
    hide Aged, StampedTogether;
    var p, nodes, t' := path[..i + 1], c.tree.nodes, InsertOne(c, path, blocks, i, now).tree;
    assert Parent(p) == path[..i];
    if p !in nodes {
      assert t'.nodes.Keys == nodes.Keys + {p};
      forall q | q in nodes
        ensures nodes[q].block != blocks[i]
      {
        assert nodes[q].block in NodeBlocks(nodes);
      }
    } else {
      assert t'.nodes.Keys == nodes.Keys;
    }
  }

  lemma InsertOneAged(c: Cache, path: Path, blocks: seq<nat>, i: nat, now: nat)
    requires i < |path| <= |blocks| && Inserting(c.tree, path, i, now)
    ensures Aged(InsertOne(c, path, blocks, i, now).tree)
  {
    hide OneBlockEach, StampedTogether;
    var p, nodes, t' := path[..i + 1], c.tree.nodes, InsertOne(c, path, blocks, i, now).tree;
    assert Parent(p) == path[..i];
    forall q | q in t'.nodes && |q| > 1 && Parent(q) in t'.nodes
      ensures t'.nodes[q].last <= t'.nodes[Parent(q)].last
    {
      assert q in nodes ==> Parent(q) in nodes;
    }
  }

  lemma InsertOneStamped(c: Cache, path: Path, blocks: seq<nat>, i: nat, now: nat)
    requires i < |path| <= |blocks| && Inserting(c.tree, path, i, now)
    ensures var t' := InsertOne(c, path, blocks, i, now).tree;
      && StampedTogether(t')
      && path[..i + 1] in t'.nodes && t'.nodes[path[..i + 1]].last == now
      && (forall p :: p in t'.nodes && t'.nodes[p].last == now ==> p <= path[..i + 1])
  {
    hide OneBlockEach, PrefixClosed, Aged;
    var p, t' := path[..i + 1], InsertOne(c, path, blocks, i, now).tree;
    forall q | q in t'.nodes && t'.nodes[q].last == now
      ensures q <= p
    {
      assert path[..i] <= p;
      assert q != p ==> q <= path[..i];
    }
    forall q, r | q in t'.nodes && r in t'.nodes && t'.nodes[q].last == t'.nodes[r].last
      ensures q <= r || r <= q
    {
      if t'.nodes[q].last == now {
        PrefixesCompare(q, r, p);
      }
    }
  }

  lemma PrefixesCompare(q: Path, r: Path, p: Path)
    requires q <= p && r <= p
    ensures q <= r || r <= q
  {
  }

  lemma InsertOneKeepsTree(c: Cache, path: Path, blocks: seq<nat>, i: nat, now: nat)
    requires i < |path| <= |blocks| && Inserting(c.tree, path, i, now)
    requires path[..i + 1] !in c.tree.nodes ==> blocks[i] !in NodeBlocks(c.tree.nodes)
    ensures Inserting(InsertOne(c, path, blocks, i, now).tree, path, i + 1, now)
  {
    InsertOneShape(c, path, blocks, i, now);
    InsertOneAged(c, path, blocks, i, now);
    InsertOneStamped(c, path, blocks, i, now);
    assert InsertOne(c, path, blocks, i, now).tree.clock == now;
    hide PrefixClosed, Aged, StampedTogether, OneBlockEach, NodeBlocks, InsertOne;
  }

  lemma InsertOneUnregistered(c: Cache, path: Path, blocks: seq<nat>, i: nat, now: nat)
    requires i < |path| <= |blocks| && Unregistered(c.tree.nodes, path, blocks, i)
    requires forall a, b :: 0 <= a < b < |path| ==> blocks[a] != blocks[b]
    ensures path[..i + 1] !in c.tree.nodes ==> blocks[i] !in NodeBlocks(c.tree.nodes)
    ensures Unregistered(InsertOne(c, path, blocks, i, now).tree.nodes, path, blocks, i + 1)
  {
    InsertOneBlocks(c, path, blocks, i, now);
    hide NodeBlocks;
    var nodes' := InsertOne(c, path, blocks, i, now).tree.nodes;
    forall n | i + 1 < n <= |path| && path[..n] !in nodes'
      ensures blocks[n - 1] !in NodeBlocks(nodes')
    {
      assert path[..n] !in c.tree.nodes;
      assert blocks[n - 1] != blocks[i];
    }
  }

  lemma {:induction false} InsertFromKeepsTree(c: Cache, path: Path, blocks: seq<nat>, i: nat, now: nat)
    requires i <= |path| <= |blocks| && Inserting(c.tree, path, i, now)
    requires Unregistered(c.tree.nodes, path, blocks, i)
    requires forall a, b :: 0 <= a < b < |path| ==> blocks[a] != blocks[b]
    ensures TreeOk(InsertFrom(c, path, blocks, i, now).tree)
    decreases |path| - i
  {
    if i < |path| {
      var c' := InsertOne(c, path, blocks, i, now);
      InsertOneUnregistered(c, path, blocks, i, now);
      InsertOneKeepsTree(c, path, blocks, i, now);
      hide Inserting, Unregistered, TreeOk;
      InsertFromKeepsTree(c', path, blocks, i + 1, now);
    }
  }
}
