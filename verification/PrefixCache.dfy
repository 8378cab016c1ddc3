/**
 The prefix cache as linked nodes. A ghost map names every node by its root path,
 which makes the tree of objects the trie of module Radix.
 */
module PrefixCache {
  import opened Numbers
  import opened Options
  import opened Blocks
  import opened Allocation
  import opened Decoding
  import opened Radix
  import opened RadixLaws

  // ---- the least recently used leaf is unique

  lemma InnerIsNoLeaf(nodes: map<Path, Node>, p: Path, q: Path)
    requires PrefixClosed(nodes) && q in nodes && p < q
    ensures !IsLeaf(nodes, p)
  {
    ClosedPrefixes(nodes, q, |p| + 1);
    assert q[..|p| + 1][..|p|] == p;
  }

  lemma LruUnique(c: Cache, p: Path, q: Path)
    requires TreeOk(c.tree) && IsLru(c, p) && IsLru(c, q)
    ensures p == q
  {
    hide Aged, OneBlockEach, Pinned;
    assert c.tree.nodes[p].last == c.tree.nodes[q].last;
    if p < q {
      InnerIsNoLeaf(c.tree.nodes, p, q);
    } else if q < p {
      InnerIsNoLeaf(c.tree.nodes, q, p);
    }
  }

  lemma VictimIs(c: Cache, p: Path)
    requires TreeOk(c.tree) && IsLru(c, p)
    ensures Victim(c) == Some(p)
  {
    hide TreeOk;
    assert Evictable(c, p);
    LruUnique(c, p, Victim(c).value);
  }

  lemma NoVictim(c: Cache)
    requires forall p :: p in c.tree.nodes ==> !Evictable(c, p)
    ensures Victim(c) == None
  {
  }

  // ---- paths

  lemma {:induction false} ChunkAt(bs: nat, toks: seq<Token>, k: nat, i: nat)
    requires k * bs <= |toks| && i < k
    ensures i * bs + bs <= |toks| && Chunks(bs, toks, k)[i] == toks[i * bs..i * bs + bs]
    decreases k
  {
    assert (k - 1) * bs + bs == k * bs;
    if i < k - 1 {
      ChunkAt(bs, toks, k - 1, i);
    }
  }

  /** Stamping one node more of a path. */
  lemma StampDeeper(nodes: map<Path, Node>, path: Path, i: nat, now: nat)
    requires i < |path| && path[..i + 1] in nodes
    ensures path[..i + 1] in Stamp(nodes, path[..i], now)
    ensures Stamp(nodes, path[..i + 1], now) ==
      Stamp(nodes, path[..i], now)[path[..i + 1] := nodes[path[..i + 1]].(last := now)]
  {
    var a, p := Stamp(nodes, path[..i], now), path[..i + 1];
    var b := Stamp(nodes, p, now);
    assert b.Keys == a[p := nodes[p].(last := now)].Keys;
    forall q | q in nodes
      ensures b[q] == a[p := nodes[p].(last := now)][q]
    {
      assert p[..i] == path[..i];
      if q <= p && q != p {
        assert q == p[..|q|] == path[..i][..|q|];
      }
      if q <= path[..i] {
        assert q == path[..i][..|q|] == p[..|q|];
      }
    }
  }

  lemma StampNothing(nodes: map<Path, Node>, now: nat)
    requires [] !in nodes
    ensures Stamp(nodes, [], now) == nodes
  {
    assert Stamp(nodes, [], now).Keys == nodes.Keys;
  }

  // ---- nodes

  function Kid(p: Path, key: Chunk): Path { p + [key] }

  class RadixNode {
    const tokens: Chunk               // the edge that leads here
    const block: Option<nat>          // block_id: None at the root only
    const parent: RadixNode?
    ghost const path: Path
    var children: map<Chunk, RadixNode>
    var lastAccess: nat

    constructor (tokens: Chunk, block: Option<nat>, parent: RadixNode?, now: nat, ghost path: Path)
      ensures this.tokens == tokens && this.block == block && this.parent == parent && this.path == path
      ensures children == map[] && lastAccess == now
    {
      this.tokens, this.block, this.parent, this.path := tokens, block, parent, path;
      children, lastAccess := map[], now;
    }
  }

  // ---- how nodes hang together, as values

  type Names = map<Path, RadixNode>
  type Branches = map<Path, map<Chunk, RadixNode>>

  /** A node hangs under its parent, by its own tokens. */
  ghost predicate Hangs(at: Names, kids: Branches, blocks: nat, p: Path)
    requires p in at && p != []
  {
    var key, up := p[|p| - 1], Parent(p);
    && up in at && up in kids
    && at[p].tokens == key && at[p].parent == at[up]
    && key in kids[up] && kids[up][key] == at[p]
    && at[p].block.Some? && at[p].block.value < blocks
  }

  /** Every child of a node is named. */
  ghost predicate KidsNamed(at: Names, kids: Branches, p: Path) {
    p in kids && forall key {:trigger Kid(p, key)} :: key in kids[p] ==> Kid(p, key) in at
  }

  ghost predicate Named(at: Names) {
    forall p {:trigger at[p]} :: p in at ==> at[p].path == p
  }

  /** The objects form the tree that `at` says. */
  ghost predicate Linked(root: RadixNode, at: Names, kids: Branches, blocks: nat) {
    && [] in at && at[[]] == root && kids.Keys == at.Keys
    && Named(at)
    && (forall p {:trigger Hangs(at, kids, blocks, p)} :: p in at && p != [] ==> Hangs(at, kids, blocks, p))
    && (forall p {:trigger KidsNamed(at, kids, p)} :: p in at ==> KidsNamed(at, kids, p))
  }

  lemma LinkedAt(root: RadixNode, at: Names, kids: Branches, blocks: nat, p: Path)
    requires Linked(root, at, kids, blocks) && p in at
    ensures at[p].path == p && p in kids && KidsNamed(at, kids, p)
    ensures p != [] ==> Hangs(at, kids, blocks, p)
  {
  }

  lemma Unnamed(root: RadixNode, at: Names, kids: Branches, blocks: nat, p: Path, key: Chunk)
    requires Linked(root, at, kids, blocks) && p in at && key !in kids[p]
    ensures Kid(p, key) !in at && Kid(p, key) != []
  {
    assert Parent(Kid(p, key)) == p;
    if Kid(p, key) in at {
      LinkedAt(root, at, kids, blocks, Kid(p, key));
    }
  }

  lemma KidUnique(p: Path, k: Chunk, q: Path, key: Chunk)
    requires Kid(p, k) == Kid(q, key)
    ensures p == q && k == key
  {
    assert Kid(p, k)[..|p|] == p && Kid(q, key)[..|q|] == q;
  }

  /** The tree with a new leaf. */
  lemma LinkedWith(root: RadixNode, at: Names, kids: Branches, blocks: nat, p: Path, key: Chunk, child: RadixNode)
    requires Linked(root, at, kids, blocks) && p in at && p in kids && Kid(p, key) !in at && Kid(p, key) != []
    requires child.tokens == key && child.block.Some? && child.block.value < blocks
    requires child.parent == at[p] && child.path == Kid(p, key)
    ensures Linked(root, at[Kid(p, key) := child], kids[p := kids[p][key := child]][Kid(p, key) := map[]], blocks)
  {
    var kid := Kid(p, key);
    var at', kids' := at[kid := child], kids[p := kids[p][key := child]][kid := map[]];
    assert Parent(kid) == p && kid[|kid| - 1] == key;
    forall q | q in at' && q != []
      ensures Hangs(at', kids', blocks, q)
    {
      if q != kid {
        LinkedAt(root, at, kids, blocks, q);
        assert q == Kid(Parent(q), q[|q| - 1]);
      }
    }
    forall q | q in at'
      ensures KidsNamed(at', kids', q)
    {
      if q != kid {
        LinkedAt(root, at, kids, blocks, q);
        forall k | k in kids'[q]
          ensures Kid(q, k) in at'
        {
        }
      }
    }
  }

  /** The tree without a leaf. */
  lemma LinkedWithout(root: RadixNode, at: Names, kids: Branches, blocks: nat, p: Path)
    requires Linked(root, at, kids, blocks) && p in at && p != [] && p in kids && kids[p] == map[]
    ensures Parent(p) in kids
    ensures Linked(root, at - {p}, kids[Parent(p) := kids[Parent(p)] - {p[|p| - 1]}] - {p}, blocks)
  {
    var up, key := Parent(p), p[|p| - 1];
    LinkedAt(root, at, kids, blocks, p);
    var at', kids' := at - {p}, kids[up := kids[up] - {key}] - {p};
    assert p == Kid(up, key);
    forall q | q in at' && q != []
      ensures Hangs(at', kids', blocks, q)
    {
      LinkedAt(root, at, kids, blocks, q);
      assert q == Kid(Parent(q), q[|q| - 1]);
    }
    forall q | q in at'
      ensures KidsNamed(at', kids', q)
    {
      LinkedAt(root, at, kids, blocks, q);
      forall k | k in kids'[q]
        ensures Kid(q, k) in at'
      {
        if Kid(q, k) == p {
          KidUnique(q, k, up, key);
        }
      }
    }
  }

  /** Every prefix of a named path is named. */
  lemma {:induction false} NamedPrefix(root: RadixNode, at: Names, kids: Branches, blocks: nat, p: Path, q: Path)
    requires Linked(root, at, kids, blocks) && q in at && p <= q
    ensures p in at
    ensures p < q ==> Kid(p, q[|p|]) in at && Kid(p, q[|p|]) <= q
    decreases |q|
  {
    if p < q {
      LinkedAt(root, at, kids, blocks, q);
      if |p| + 1 < |q| {
        NamedPrefix(root, at, kids, blocks, p, Parent(q));
      } else {
        assert q == Kid(p, q[|p|]) && Parent(q) == p;
      }
    } else {
      assert p == q;
    }
  }

  lemma NamedKid(root: RadixNode, at: Names, kids: Branches, blocks: nat, p: Path, key: Chunk)
    requires Linked(root, at, kids, blocks) && p in at
    ensures p in kids
    ensures Kid(p, key) in at <==> key in kids[p]
    ensures Kid(p, key) in at ==> at[Kid(p, key)] == kids[p][key]
  {
    LinkedAt(root, at, kids, blocks, p);
    assert Parent(Kid(p, key)) == p && Kid(p, key)[|p|] == key;
    if Kid(p, key) in at {
      LinkedAt(root, at, kids, blocks, Kid(p, key));
    }
  }

  /** A node without children is a leaf of the trie, and the other way round. */
  lemma ChildlessIsLeaf(root: RadixNode, at: Names, kids: Branches, blocks: nat, nodes: map<Path, Node>, p: Path)
    requires Linked(root, at, kids, blocks) && p in at && p in nodes && p in kids
    requires forall q :: q in nodes <==> q in at && q != []
    ensures IsLeaf(nodes, p) <==> kids[p] == map[]
  {
    if kids[p] == map[] {
      forall q | q in nodes && |q| == |p| + 1
        ensures q[..|p|] != p
      {
        assert q == Kid(q[..|p|], q[|p|]);
        NamedKid(root, at, kids, blocks, p, q[|p|]);
      }
    } else {
      var key :| key in kids[p];
      NamedKid(root, at, kids, blocks, p, key);
      assert Kid(p, key)[..|p|] == p;
    }
  }

  class RadixCache {
    const blockSize: nat
    const allocator: BlockAllocator
    const maxBlocks: Option<nat>
    const root: RadixNode
    var clock: nat
    var cached: int
    ghost var at: Names

    ghost function Kids(): (kids: Branches)
      reads this`at, at.Values`children
      ensures kids.Keys == at.Keys
    {
      map p | p in at :: at[p].children
    }

    ghost predicate IsTree()
      reads this`at, at.Values`children
    {
      Linked(root, at, Kids(), allocator.numBlocks)
    }

    ghost function Entry(p: Path): Node
      requires p in at
      reads this`at, at.Values`lastAccess
    {
      Node(if at[p].block.Some? then at[p].block.value else 0, at[p].lastAccess)
    }

    ghost function Nodes(): (nodes: map<Path, Node>)
      reads this`at, at.Values`lastAccess
    {
      map p | p in at && p != [] :: Entry(p)
    }

    ghost function Value(): Cache
      reads this, at.Values, allocator
    {
      Cache(Tree(Nodes(), clock, cached), allocator.Value())
    }

    ghost predicate Valid()
      reads this, at.Values, allocator
    {
      && blockSize > 0 && allocator.Valid()
      && IsTree() && TreeOk(Value().tree)
    }

    constructor (blockSize: nat, allocator: BlockAllocator, maxBlocks: Option<nat>)
      requires blockSize > 0 && allocator.Valid()
      ensures Valid() && fresh(at.Values)
      ensures this.blockSize == blockSize && this.allocator == allocator && this.maxBlocks == maxBlocks
      ensures Value() == Cache(EmptyTree, allocator.Value())
    {
      this.blockSize, this.allocator, this.maxBlocks := blockSize, allocator, maxBlocks;
      var r := new RadixNode([], None, null, 0, []);
      root := r;
      clock, cached := 0, 0;
      at := map[[] := r];
      new;
      assert Nodes() == map[];
    }

    lemma TreeParts(p: Path)
      requires IsTree() && p in at
      ensures Linked(root, at, Kids(), allocator.numBlocks)
      ensures Named(at) && Kids()[p] == at[p].children
    {
    }

    /** Exchange the children of one node. */
    method Branch(node: RadixNode, ghost p: Path, children: map<Chunk, RadixNode>)
      requires p in at && at[p] == node && Named(at)
      modifies node`children
      ensures Kids() == old(Kids())[p := children] && node.children == children
    {
      node.children := children;
    }

    ghost method Name(p: Path, node: RadixNode)
      requires p !in at && p != [] && node.block.Some?
      modifies this`at
      ensures at == old(at)[p := node]
      ensures Kids() == old(Kids())[p := node.children]
      ensures Nodes() == old(Nodes())[p := Node(node.block.value, node.lastAccess)]
    {
      at := at[p := node];
    }

    ghost method Forget(p: Path)
      modifies this`at
      ensures at == old(at) - {p} && Kids() == old(Kids()) - {p} && Nodes() == old(Nodes()) - {p}
    {
      at := at - {p};
    }

    lemma IsLinked()
      requires Linked(root, at, Kids(), allocator.numBlocks)
      ensures IsTree()
    {
    }

    /** Stamp one node. */
    method Touch(node: RadixNode, ghost p: Path, now: nat)
      requires IsTree() && p in at && p != [] && at[p] == node
      modifies node`lastAccess
      ensures IsTree()
      ensures p in old(Nodes()) && Nodes() == old(Nodes())[p := old(Nodes())[p].(last := now)]
    {
      hide Linked;
      TreeParts(p);
      node.lastAccess := now;
    }

    /** Hang a new leaf under a node. */
    method AddChild(node: RadixNode, ghost p: Path, key: Chunk, block: nat, now: nat) returns (child: RadixNode)
      requires IsTree() && p in at && at[p] == node && key !in node.children && block < allocator.numBlocks
      modifies node`children, this`at
      ensures IsTree() && fresh(child) && at == old(at)[Kid(p, key) := child] && Kid(p, key) !in old(at)
      ensures Nodes() == old(Nodes())[Kid(p, key) := Node(block, now)]
    {
      hide *;
      ghost var kids := Kids();
      TreeParts(p);
      Unnamed(root, at, kids, allocator.numBlocks, p, key);
      child := new RadixNode(key, Some(block), node, now, Kid(p, key));
      LinkedWith(root, at, kids, allocator.numBlocks, p, key, child);
      Branch(node, p, node.children[key := child]);
      Name(Kid(p, key), child);
      IsLinked();
    }

    /** Take a leaf off the tree. */
    method Unlink(node: RadixNode, ghost p: Path)
      requires IsTree() && p in at && p != [] && at[p] == node && node.children == map[]
      modifies at.Values`children, this`at
      ensures IsTree() && at == old(at) - {p}
      ensures Nodes() == old(Nodes()) - {p}
    {
      hide *;
      ghost var kids := Kids();
      TreeParts(p);
      LinkedWithout(root, at, kids, allocator.numBlocks, p);
      UnderParent(root, at, kids, allocator.numBlocks, p);
      TreeParts(Parent(p));
      var parent := node.parent;
      Branch(parent, Parent(p), parent.children - {node.tokens});
      Forget(p);
      IsLinked();
    }
  
    // ---- eviction

    ghost predicate AllBelow(p: Path, nodes: seq<RadixNode>)
      reads this`at
    {
      && (forall n :: n in nodes ==> p <= n.path && n.path in at && at[n.path] == n)
      && (forall q {:trigger at[q]} :: q in at && p <= q ==> at[q] in nodes)
    }

    ghost function Below(p: Path): set<Path>
      reads this`at
    {
      set q | q in at && p <= q
    }

    /** Part of a walk: the node itself and everything under the children already visited. */
    ghost predicate Walked(p: Path, nodes: seq<RadixNode>, todo: set<Chunk>)
      reads this`at
    {
      && (forall n :: n in nodes ==> p <= n.path && n.path in at && at[n.path] == n)
      && p in at && at[p] in nodes
      && (forall q {:trigger at[q]} :: q in at && p < q && q[|p|] !in todo ==> at[q] in nodes)
    }

    lemma WalkStarts(node: RadixNode, p: Path)
      requires IsTree() && p in at && at[p] == node
      ensures Walked(p, [node], node.children.Keys)
    {
      TreeParts(p);
      forall q | q in at && p < q
        ensures q[|p|] in node.children.Keys
      {
        NamedPrefix(root, at, Kids(), allocator.numBlocks, p, q);
        NamedKid(root, at, Kids(), allocator.numBlocks, p, q[|p|]);
      }
    }

    lemma WalkGrows(p: Path, nodes: seq<RadixNode>, todo: set<Chunk>, key: Chunk, below: seq<RadixNode>)
      requires Walked(p, nodes, todo) && AllBelow(Kid(p, key), below)
      ensures Walked(p, nodes + below, todo - {key})
    {
      assert p <= Kid(p, key);
      forall q {:trigger at[q]} | q in at && p < q && q[|p|] !in todo - {key}
        ensures at[q] in nodes + below
      {
        if q[|p|] == key {
          assert Kid(p, key) <= q;
        }
      }
    }

    lemma WalkEnds(p: Path, nodes: seq<RadixNode>)
      requires Walked(p, nodes, {})
      ensures AllBelow(p, nodes)
    {
      forall q {:trigger at[q]} | q in at && p <= q
        ensures at[q] in nodes
      {
        assert p < q || p == q;
      }
    }

    lemma StepDown(node: RadixNode, p: Path, key: Chunk)
      requires IsTree() && p in at && at[p] == node && key in node.children
      ensures Kid(p, key) in at && at[Kid(p, key)] == node.children[key]
      ensures Below(Kid(p, key)) < Below(p)
    {
      TreeParts(p);
      NamedKid(root, at, Kids(), allocator.numBlocks, p, key);
      assert p in Below(p) && p !in Below(Kid(p, key));
      assert p <= Kid(p, key);
    }

    /** The nodes of a subtree. */
    method Walk(node: RadixNode, ghost p: Path) returns (nodes: seq<RadixNode>)
      requires IsTree() && p in at && at[p] == node
      ensures AllBelow(p, nodes)
      decreases Below(p)
    {
      hide *;
      nodes := [node];
      var todo := node.children.Keys;
      WalkStarts(node, p);
      while todo != {}
        invariant todo <= node.children.Keys && Walked(p, nodes, todo)
        decreases todo
      {
        var key :| key in todo;
        StepDown(node, p, key);
        var below := Walk(node.children[key], Kid(p, key));
        WalkGrows(p, nodes, todo, key, below);
        nodes := nodes + below;
        todo := todo - {key};
      }
      WalkEnds(p, nodes);
    }

    lemma NodeFacts(n: RadixNode)
      requires Valid() && n.path in at && at[n.path] == n
      ensures n == root <==> n.path == []
      ensures n != root ==> n.block.Some? && n.block.value < allocator.numBlocks
      ensures n != root ==> (Evictable(Value(), n.path) <==> n.children == map[] && allocator.refs[n.block.value] == 1)
      ensures n == root ==> !Evictable(Value(), n.path)
      ensures n != root ==> n.path in Value().tree.nodes && Value().tree.nodes[n.path].last == n.lastAccess
      ensures n != root ==> Live(Value().pool, n.block.value) == (allocator.refs[n.block.value] > 0)
      ensures |allocator.refs| == allocator.numBlocks
    {
      hide TreeOk, FreeListOk;
      TreeParts(n.path);
      LinkedAt(root, at, Kids(), allocator.numBlocks, n.path);
      if n.path != [] {
        ChildlessIsLeaf(root, at, Kids(), allocator.numBlocks, Nodes(), n.path);
      }
    }

    lemma ValidParts()
      requires Valid()
      ensures IsTree() && TreeOk(Value().tree) && [] in at && at[[]] == root
      ensures blockSize > 0 && allocator.Valid()
    {
      hide TreeOk, Hangs, KidsNamed, Named;
    }

    lemma AllNodes(nodes: seq<RadixNode>)
      requires IsTree() && AllBelow([], nodes)
      ensures forall p :: p in Value().tree.nodes ==> exists n :: n in nodes && n.path == p
      ensures forall n :: n in nodes ==> n.path in at && at[n.path] == n
    {
      forall p | p in Value().tree.nodes
        ensures exists n :: n in nodes && n.path == p
      {
        assert at[p] in nodes;
      }
    }

    /** The least recently used leaf that only the cache holds. */
    method LruEvictableLeaf() returns (best: RadixNode?)
      requires Valid()
      ensures best == null ==> Victim(Value()) == None
      ensures best != null ==>
        && Victim(Value()) == Some(best.path) && best.path in at && at[best.path] == best && best.path != []
        && best.children == map[] && best.block.Some? && Live(Value().pool, best.block.value)
    {
      hide *;
      ValidParts();
      var nodes := Walk(root, []);
      AllNodes(nodes);
      best := null;
      BestOfNone(Value());
      for i := 0 to |nodes|
        invariant BestOf(Value(), nodes[..i], best) && (best != null ==> best in nodes)
      {
        var node := nodes[i];
        NodeFacts(node);
        if best != null {
          NodeFacts(best);
        }
        BestStep(Value(), nodes[..i], best, node);
        assert nodes[..i + 1] == nodes[..i] + [node];
        if node == root || node.children != map[] || allocator.refs[node.block.value] != 1 {
          continue;
        }
        if best == null || node.lastAccess < best.lastAccess {
          best := node;
        }
      }
      assert nodes[..|nodes|] == nodes;
      BestIsVictim(Value(), nodes, best);
      if best != null {
        NodeFacts(best);
      }
    }

    /** Delete a leaf and give its block back. */
    method Discard(victim: RadixNode)
      requires Valid() && victim.path in at && at[victim.path] == victim && victim.path != []
      requires victim.children == map[] && victim.block.Some? && Live(Value().pool, victim.block.value)
      requires victim.path in Value().tree.nodes && IsLeaf(Value().tree.nodes, victim.path)
      modifies this, allocator, at.Values`children
      ensures Valid() && Value() == Remove(old(Value()), victim.path)
      ensures at.Values <= old(at.Values) && clock == old(clock)
      ensures allocator.cowCopies == old(allocator.cowCopies)
    {
      hide *;
      ghost var before := Value();
      ValidParts();
      ValueIs(victim.path);
      RemoveKeepsTree(before, victim.path);
      Unlink(victim, victim.path);
      var left := allocator.Free(victim.block.value);
      cached := cached - 1;
      Removed(before, victim.path);
      IsValid();
    }

    lemma ValueIs(p: Path)
      ensures Value() == Cache(Tree(Nodes(), clock, cached), allocator.Value())
      ensures p in at && p != [] && at[p].block.Some? ==>
        p in Nodes() && Nodes()[p] == Node(at[p].block.value, at[p].lastAccess)
    {
      hide Linked;
    }

    lemma IsValid()
      requires blockSize > 0 && allocator.Valid() && IsTree() && TreeOk(Value().tree)
      ensures Valid()
    {
    }

    lemma Removed(before: Cache, p: Path)
      requires p in before.tree.nodes
      requires Nodes() == before.tree.nodes - {p} && clock == before.tree.clock && cached == before.tree.cached - 1
      requires allocator.Value() == Blocks.Free(before.pool, before.tree.nodes[p].block)
      ensures Value() == Remove(before, p)
    {
      hide Linked;
    }

    /** Evict up to k least recently used leaves that only the cache holds; how many went. */
    method Evict(k: int) returns (gone: nat)
      requires Valid()
      modifies this, allocator, at.Values`children
      ensures Valid() && at.Values <= old(at.Values)
      ensures Value() == Radix.Evict(old(Value()), if k > 0 then k else 0)
      ensures gone == |Victims(old(Value()), if k > 0 then k else 0)|
      ensures allocator.cowCopies == old(allocator.cowCopies)
    {
      hide *;
      gone := 0;
      ghost var all: nat := if k > 0 then k else 0;
      while gone < k
        invariant gone <= all && Valid() && at.Values <= old(at.Values)
        invariant Radix.Evict(old(Value()), all) == Radix.Evict(Value(), all - gone)
        invariant |Victims(old(Value()), all)| == gone + |Victims(Value(), all - gone)|
        invariant allocator.cowCopies == old(allocator.cowCopies)
        decreases k - gone
      {
        EvictStep(Value(), all - gone);
        var victim := LruEvictableLeaf();
        if victim == null {
          break;
        }
        VictimLeaf(Value(), victim.path);
        Discard(victim);
        gone := gone + 1;
      }
      EvictStep(Value(), 0);
    }

    /** Bring the number of cached blocks down to a target, as far as pins allow. */
    method EvictTo(target: nat) returns (gone: nat)
      requires Valid()
      modifies this, allocator, at.Values`children
      ensures Valid() && at.Values <= old(at.Values)
      ensures Value() == Radix.EvictTo(old(Value()), target)
      ensures allocator.cowCopies == old(allocator.cowCopies)
    {
      hide Valid, Radix.Evict, Victims, Nodes;
      var excess := cached - target;
      if excess > 0 {
        gone := Evict(excess);
      } else {
        gone := 0;
      }
    }

    // ---- lookup

    /** Part of a lookup: the first i chunks of the path were found, collected and stamped. */
    ghost predicate Matching(t: Tree, path: Path, i: nat, node: RadixNode, blocks: seq<nat>, now: nat)
      reads this, at.Values
    {
      && i <= |path| && IsTree() && path[..i] in at && at[path[..i]] == node
      && (forall n :: 0 < n <= i ==> path[..n] in t.nodes)
      && Nodes() == Stamp(t.nodes, path[..i], now)
      && |blocks| == i && (forall n :: 0 <= n < i ==> blocks[n] == t.nodes[path[..n + 1]].block)
    }

    lemma MatchStarts(t: Tree, path: Path, now: nat)
      requires IsTree() && t.nodes == Nodes()
      ensures Matching(t, path, 0, root, [], now)
    {
      hide Hangs, KidsNamed, Named;
      StampNothing(Nodes(), now);
      assert path[..0] == [];
    }

    /** Whether the next chunk is cached. */
    lemma MatchLooks(t: Tree, path: Path, i: nat, node: RadixNode, blocks: seq<nat>, now: nat)
      requires Matching(t, path, i, node, blocks, now) && i < |path|
      ensures path[..i + 1] in t.nodes <==> path[i] in node.children
      ensures path[i] in node.children ==>
        && path[..i + 1] in at && at[path[..i + 1]] == node.children[path[i]]
        && node.children[path[i]].block == Some(t.nodes[path[..i + 1]].block)
    {
      hide Hangs, KidsNamed, Named;
      TreeParts(path[..i]);
      NamedKid(root, at, Kids(), allocator.numBlocks, path[..i], path[i]);
      assert Kid(path[..i], path[i]) == path[..i + 1];
      StampFacts(t.nodes, path[..i], now);
      if path[..i + 1] in at {
        NodeBlock(path[..i + 1]);
      }
    }

    lemma NodeBlock(p: Path)
      requires IsTree() && p in at && p != []
      ensures p in Nodes() && at[p].block == Some(Nodes()[p].block)
    {
      LinkedAt(root, at, Kids(), allocator.numBlocks, p);
      hide Linked;
    }

    lemma MatchGoesOn(t: Tree, path: Path, i: nat, nodes: map<Path, Node>, child: RadixNode, blocks: seq<nat>, now: nat)
      requires i < |path| && path[..i + 1] in t.nodes && IsTree()
      requires path[..i + 1] in at && at[path[..i + 1]] == child
      requires forall n :: 0 < n <= i ==> path[..n] in t.nodes
      requires nodes == Stamp(t.nodes, path[..i], now) && path[..i + 1] in nodes
      requires Nodes() == nodes[path[..i + 1] := nodes[path[..i + 1]].(last := now)]
      requires |blocks| == i && (forall n :: 0 <= n < i ==> blocks[n] == t.nodes[path[..n + 1]].block)
      ensures Matching(t, path, i + 1, child, blocks + [t.nodes[path[..i + 1]].block], now)
    {
      hide Linked, IsTree, Nodes;
      StampDeeper(t.nodes, path, i, now);
    }

    lemma MatchParts(t: Tree, path: Path, i: nat, node: RadixNode, blocks: seq<nat>, now: nat)
      requires Matching(t, path, i, node, blocks, now)
      ensures i <= |path| && IsTree() && |blocks| == i
      ensures forall n :: 0 < n <= i ==> path[..n] in t.nodes
      ensures Nodes() == Stamp(t.nodes, path[..i], now)
      ensures forall n :: 0 <= n < i ==> blocks[n] == t.nodes[path[..n + 1]].block
    {
      hide Linked, IsTree, Stamp;
    }

    /** The longest cached prefix that leaves a token to run: its blocks and its length in tokens. */
    method Match(tokens: seq<Token>) returns (blocks: seq<nat>, matched: nat)
      requires Valid()
      modifies this`clock, at.Values`lastAccess
      ensures Valid()
      ensures blocks == MatchBlocks(blockSize, old(Value().tree), tokens) && matched == |blocks| * blockSize
      ensures Value() == Cache(MatchTree(blockSize, old(Value().tree), tokens), old(Value().pool))
    {
      hide *;
      ValidParts();
      ghost var t := Value().tree;
      ghost var path := Usable(blockSize, tokens);
      MatchKeepsTree(blockSize, t, tokens);
      var usable := if |tokens| > 0 then |tokens| - 1 else 0;
      var chunks := usable / blockSize;
      ValueIs([]);
      UsableIs(blockSize, tokens);
      clock := clock + 1;
      var now := clock;
      var node := root;
      blocks := [];
      MatchStarts(t, path, now);
      ghost var found := 0;
      for i := 0 to chunks
        invariant found == i && clock == now && Matching(t, path, i, node, blocks, now)
      {
        var start := i * blockSize;
        UsableChunk(blockSize, tokens, i);
        var key := tokens[start..start + blockSize];
        MatchLooks(t, path, i, node, blocks, now);
        MatchParts(t, path, i, node, blocks, now);
        if key !in node.children {
          break;
        }
        var child := node.children[key];
        ghost var nodes := Nodes();
        Touch(child, path[..i + 1], now);
        MatchGoesOn(t, path, i, nodes, child, blocks, now);
        blocks := blocks + [child.block.value];
        node := child;
        found := i + 1;
      }
      MatchParts(t, path, found, node, blocks, now);
      MatchIs(blockSize, t, tokens, blocks, found);
      matched := |blocks| * blockSize;
      ValueIs([]);
      IsValid();
    }

    // ---- insertion

    /** Part of an insertion: the first i chunks of the path are registered. */
    ghost predicate Registering(path: Path, blocks: seq<nat>, i: nat, node: RadixNode, now: nat, all: Cache)
      reads this, at.Values, allocator
    {
      && i <= |path| <= |blocks| && IsTree() && path[..i] in at && at[path[..i]] == node
      && clock == now && allocator.Valid()
      && Inserting(Value().tree, path, i, now) && Unregistered(Value().tree.nodes, path, blocks, i)
      && all == InsertFrom(Value(), path, blocks, i, now)
    }

    lemma RegisterStarts(path: Path, blocks: seq<nat>, before: Cache)
      requires |path| <= |blocks| && IsTree() && allocator.Valid() && TreeOk(before.tree)
      requires before.tree.nodes == Nodes() && before.tree.cached == cached && before.tree.clock + 1 == clock
      requires before.pool == allocator.Value()
      requires Unregistered(before.tree.nodes, path, blocks, 0)
      ensures Registering(path, blocks, 0, root, clock,
        InsertFrom(before.(tree := before.tree.(clock := clock)), path, blocks, 0, clock))
    {
      hide Hangs, KidsNamed, Named, PrefixClosed, OneBlockEach, InsertFrom, Unregistered;
      assert path[..0] == [];
      assert Value() == before.(tree := before.tree.(clock := clock));
    }

    lemma RegisterLooks(path: Path, blocks: seq<nat>, i: nat, node: RadixNode, now: nat, all: Cache)
      requires Registering(path, blocks, i, node, now, all) && i < |path|
      ensures IsTree() && allocator.Valid() && clock == now && Kid(path[..i], path[i]) == path[..i + 1]
      ensures path[..i] in at && at[path[..i]] == node
      ensures path[..i + 1] in Value().tree.nodes <==> path[i] in node.children
      ensures path[i] in node.children ==> path[..i + 1] in at && at[path[..i + 1]] == node.children[path[i]]
      ensures all == InsertFrom(InsertOne(Value(), path, blocks, i, now), path, blocks, i + 1, now)
    {
      hide Hangs, KidsNamed, Named, Unregistered, TreeOk;
      TreeParts(path[..i]);
      NamedKid(root, at, Kids(), allocator.numBlocks, path[..i], path[i]);
    }

    lemma RegisterGoesOn(path: Path, blocks: seq<nat>, i: nat, now: nat, before: Cache, child: RadixNode, all: Cache)
      requires i < |path| <= |blocks| && IsTree() && allocator.Valid() && clock == now
      requires NoRepeats(blocks)
      requires Inserting(before.tree, path, i, now) && Unregistered(before.tree.nodes, path, blocks, i)
      requires Value() == InsertOne(before, path, blocks, i, now)
      requires path[..i + 1] in at && at[path[..i + 1]] == child
      requires all == InsertFrom(InsertOne(before, path, blocks, i, now), path, blocks, i + 1, now)
      ensures Registering(path, blocks, i + 1, child, now, all)
    {
      hide Inserting, Unregistered, IsTree, InsertFrom, InsertOne;
      InsertOneUnregistered(before, path, blocks, i, now);
      InsertOneKeepsTree(before, path, blocks, i, now);
    }

    lemma RegisterParts(path: Path, blocks: seq<nat>, i: nat, node: RadixNode, now: nat, all: Cache)
      requires Registering(path, blocks, i, node, now, all)
      ensures i <= |path| <= |blocks| && IsTree() && allocator.Valid() && clock == now
      ensures Inserting(Value().tree, path, i, now) && Unregistered(Value().tree.nodes, path, blocks, i)
      ensures TreeOk(Value().tree) && node in at.Values
      ensures i == |path| ==> all == Value()
    {
      hide TreeOk, IsTree, Unregistered;
    }

    lemma StampedIs(before: Cache, path: Path, blocks: seq<nat>, i: nat, now: nat)
      requires i < |path| <= |blocks| && path[..i + 1] in before.tree.nodes
      requires Nodes() == before.tree.nodes[path[..i + 1] := before.tree.nodes[path[..i + 1]].(last := now)]
      requires clock == before.tree.clock && cached == before.tree.cached && allocator.Value() == before.pool
      ensures Value() == InsertOne(before, path, blocks, i, now)
    {
      hide IsTree;
    }

    lemma AddedIs(before: Cache, path: Path, blocks: seq<nat>, i: nat, now: nat)
      requires i < |path| <= |blocks| && path[..i + 1] !in before.tree.nodes
      requires Nodes() == before.tree.nodes[path[..i + 1] := Node(blocks[i], now)]
      requires clock == before.tree.clock && cached == before.tree.cached + 1
      requires allocator.Value() == Blocks.Incref(before.pool, blocks[i])
      ensures Value() == InsertOne(before, path, blocks, i, now)
    {
      hide IsTree;
    }

    /** The next chunk is new: take a reference on its block and hang a leaf. Null is a block without an owner. */
    method RegisterNew(node: RadixNode, ghost path: Path, blocks: seq<nat>, i: nat, key: Chunk, now: nat,
                       ghost all: Cache)
        returns (child: RadixNode?)
      requires Registering(path, blocks, i, node, now, all) && NoRepeats(blocks)
      requires i < |path| && i < |blocks| && key == path[i] && key !in node.children
      modifies this`at, this`cached, allocator, node`children
      ensures child != null <==> Live(old(allocator.Value()), blocks[i])
      ensures child != null ==> Registering(path, blocks, i + 1, child, now, all)
      ensures child != null ==> cached == old(cached) + 1 && at.Values <= old(at.Values) + {child} && fresh(child)
      ensures child == null ==> at == old(at)
      ensures child != null ==> allocator.Value() == Blocks.Incref(old(allocator.Value()), blocks[i])
      ensures allocator.cowCopies == old(allocator.cowCopies)
    {
      hide *;
      ghost var was := Value();
      RegisterParts(path, blocks, i, node, now, all);
      RegisterLooks(path, blocks, i, node, now, all);
      ValueIs([]);
      LiveBlock(allocator, blocks[i]);
      var count := allocator.Incref(blocks[i]);
      if count.None? {
        return null;
      }
      child := AddChild(node, path[..i], key, blocks[i], now);
      cached := cached + 1;
      AddedIs(was, path, blocks, i, now);
      RegisterGoesOn(path, blocks, i, now, was, child, all);
    }

    /** The next chunk is there: stamp its node. */
    method RegisterOld(node: RadixNode, ghost path: Path, blocks: seq<nat>, i: nat, key: Chunk, now: nat,
                       ghost all: Cache)
        returns (child: RadixNode)
      requires Registering(path, blocks, i, node, now, all) && NoRepeats(blocks)
      requires i < |path| && i < |blocks| && key == path[i] && key in node.children
      modifies at.Values`lastAccess
      ensures Registering(path, blocks, i + 1, child, now, all)
    {
      hide *;
      ghost var was := Value();
      RegisterParts(path, blocks, i, node, now, all);
      RegisterLooks(path, blocks, i, node, now, all);
      ValueIs([]);
      child := node.children[key];
      Touch(child, path[..i + 1], now);
      StampedIs(was, path, blocks, i, now);
      RegisterGoesOn(path, blocks, i, now, was, child, all);
    }

    /**
     Register block ids as the cached KV of the full blocks of `tokens`, then enforce the
     cap; how many were new. None is a block without an owner.
     */
    method Insert(tokens: seq<Token>, blockIds: seq<nat>) returns (added: Option<nat>)
      requires Valid() && NoRepeats(blockIds)
      requires Unregistered(Value().tree.nodes, InsertPath(blockSize, tokens, blockIds), blockIds, 0)
      modifies this, allocator, at.Values
      ensures allocator.cowCopies == old(allocator.cowCopies) && fresh(at.Values - old(at.Values))
      ensures AllIncref(old(allocator.Value()), blockIds) ==> added.Some?
      ensures added.Some? ==> Valid()
      ensures added.Some? ==>
        var mid := Register(blockSize, old(Value()), tokens, blockIds);
        && added.value == mid.tree.cached - old(cached)
        && Value() == match maxBlocks { case Some(cap) => Radix.EvictTo(mid, cap) case None => mid }
    {
      hide *;
      ValidParts();
      ghost var before := Value();
      ghost var path := InsertPath(blockSize, tokens, blockIds);
      var full := |tokens| / blockSize;
      var chunks := if |blockIds| < full then |blockIds| else full;
      ValueIs([]);
      InsertPathIs(blockSize, tokens, blockIds);
      var node: RadixNode := root;
      clock := clock + 1;
      var now := clock;
      var count := 0;
      RegisterStarts(path, blockIds, before);
      RegisterIs(blockSize, before, tokens, blockIds);
      ghost var all := Register(blockSize, before, tokens, blockIds);
      for i := 0 to chunks
        invariant Registering(path, blockIds, i, node, now, all)
        invariant count == cached - old(cached)
        invariant allocator.cowCopies == old(allocator.cowCopies) && fresh(at.Values - old(at.Values))
        invariant AllIncref(old(allocator.Value()), blockIds) ==> AllIncref(allocator.Value(), blockIds)
      {
        var start := i * blockSize;
        PathChunk(blockSize, tokens, blockIds, i);
        var key := tokens[start..start + blockSize];
        RegisterParts(path, blockIds, i, node, now, all);
        if key !in node.children {
          OneOf(blockIds, i);
          LiveOnes(allocator.Value(), blockIds, blockIds[i]);
          var child := RegisterNew(node, path, blockIds, i, key, now, all);
          if child == null {
            return None;
          }
          node := child;
          count := count + 1;
        } else {
          node := RegisterOld(node, path, blockIds, i, key, now, all);
        }
      }
      RegisterParts(path, blockIds, chunks, node, now, all);
      IsValid();
      ValueIs([]);
      if maxBlocks.Some? {
        var gone := EvictTo(maxBlocks.value);
      }
      return Some(count);
    }
  }

  ghost predicate NoRepeats(blocks: seq<nat>) {
    forall a, b :: 0 <= a < b < |blocks| ==> blocks[a] != blocks[b]
  }

  lemma InsertPathIs(bs: nat, toks: seq<Token>, blocks: seq<nat>)
    requires bs > 0
    ensures |InsertPath(bs, toks, blocks)| == if |blocks| < |toks| / bs then |blocks| else |toks| / bs
  {
  }

  lemma RegisterIs(bs: nat, c: Cache, toks: seq<Token>, blocks: seq<nat>)
    requires bs > 0
    ensures var now := c.tree.clock + 1;
      Register(bs, c, toks, blocks) ==
        InsertFrom(c.(tree := c.tree.(clock := now)), InsertPath(bs, toks, blocks), blocks, 0, now)
  {
    hide InsertPath, InsertFrom;
  }

  lemma PathChunk(bs: nat, toks: seq<Token>, blocks: seq<nat>, i: nat)
    requires bs > 0 && i < |InsertPath(bs, toks, blocks)|
    ensures i * bs + bs <= |toks| && InsertPath(bs, toks, blocks)[i] == toks[i * bs..i * bs + bs]
  {
    var k := |InsertPath(bs, toks, blocks)|;
    MulMono(k, |toks| / bs, bs);
    ChunkAt(bs, toks, k, i);
  }

  lemma OneOf(blocks: seq<nat>, i: nat)
    requires i < |blocks|
    ensures blocks[i] in blocks
  {
  }

  lemma LiveOnes(p: Pool, blocks: seq<nat>, b: nat)
    ensures AllIncref(p, blocks) ==> AllIncref(Blocks.Incref(p, b), blocks)
    ensures AllIncref(p, blocks) && b in blocks ==> Live(p, b)
  {
  }

  lemma LiveBlock(a: BlockAllocator, b: nat)
    requires a.Valid()
    ensures Live(a.Value(), b) ==> b < a.numBlocks
  {
  }

  lemma UsableIs(bs: nat, toks: seq<Token>)
    requires bs > 0
    ensures |Usable(bs, toks)| == (if |toks| > 0 then |toks| - 1 else 0) / bs
  {
  }

  lemma UsableChunk(bs: nat, toks: seq<Token>, i: nat)
    requires bs > 0 && i < |Usable(bs, toks)|
    ensures i * bs + bs <= |toks| && Usable(bs, toks)[i] == toks[i * bs..i * bs + bs]
  {
    ChunkAt(bs, toks, |Usable(bs, toks)|, i);
  }

  lemma PrefixFound(nodes: map<Path, Node>, path: Path, i: nat, n: nat)
    requires i <= |path| && (forall k :: 0 < k <= i ==> path[..k] in nodes)
    ensures 0 < n <= i ==> path[..n] in nodes
  {
  }

  lemma FollowIs(nodes: map<Path, Node>, path: Path, i: nat)
    requires i <= |path| && (forall n :: 0 < n <= i ==> path[..n] in nodes)
    requires i < |path| ==> path[..i + 1] !in nodes
    ensures Follow(nodes, path, 0) == i
  {
    var d := Follow(nodes, path, 0);
    PrefixFound(nodes, path, i, d + 1);
    PrefixFound(nodes, path, d, i + 1);
  }

  lemma MatchIs(bs: nat, t: Tree, toks: seq<Token>, blocks: seq<nat>, i: nat)
    requires bs > 0 && i <= |Usable(bs, toks)|
    requires forall n :: 0 < n <= i ==> Usable(bs, toks)[..n] in t.nodes
    requires i < |Usable(bs, toks)| ==> Usable(bs, toks)[..i + 1] !in t.nodes
    requires |blocks| == i && (forall n :: 0 <= n < i ==> blocks[n] == t.nodes[Usable(bs, toks)[..n + 1]].block)
    ensures blocks == MatchBlocks(bs, t, toks)
    ensures MatchTree(bs, t, toks) ==
      t.(nodes := Stamp(t.nodes, Usable(bs, toks)[..i], t.clock + 1), clock := t.clock + 1)
  {
    hide Usable, Stamp;
    FollowIs(t.nodes, Usable(bs, toks), i);
  }

  lemma VictimLeaf(c: Cache, p: Path)
    requires Victim(c) == Some(p)
    ensures p in c.tree.nodes && IsLeaf(c.tree.nodes, p)
  {
    hide Victim;
  }

  /** The least recently used evictable node among some. */
  ghost predicate BestOf(c: Cache, nodes: seq<RadixNode>, best: RadixNode?) {
    && (best == null ==> forall n :: n in nodes ==> !Evictable(c, n.path))
    && (best != null ==>
          && best in nodes && Evictable(c, best.path)
          && forall n :: n in nodes && Evictable(c, n.path) ==>
               c.tree.nodes[best.path].last <= c.tree.nodes[n.path].last)
  }

  lemma BestOfNone(c: Cache)
    ensures BestOf(c, [], null)
  {
  }

  lemma BestStep(c: Cache, nodes: seq<RadixNode>, best: RadixNode?, n: RadixNode)
    requires BestOf(c, nodes, best)
    ensures best != null ==> best.path in c.tree.nodes && Evictable(c, best.path)
    ensures Evictable(c, n.path) ==> n.path in c.tree.nodes
    ensures if !Evictable(c, n.path) then BestOf(c, nodes + [n], best)
      else if best == null then BestOf(c, nodes + [n], n)
      else if c.tree.nodes[n.path].last < c.tree.nodes[best.path].last then BestOf(c, nodes + [n], n)
      else BestOf(c, nodes + [n], best)
  {
    hide Pinned;
  }

  lemma BestIsVictim(c: Cache, nodes: seq<RadixNode>, best: RadixNode?)
    requires TreeOk(c.tree) && BestOf(c, nodes, best)
    requires forall p :: p in c.tree.nodes ==> exists n :: n in nodes && n.path == p
    ensures best == null ==> Victim(c) == None
    ensures best != null ==> Victim(c) == Some(best.path) && best in nodes && Evictable(c, best.path)
  {
    hide TreeOk, Pinned;
    if best == null {
      NoVictim(c);
    } else {
      VictimIs(c, best.path);
    }
  }

  lemma UnderParent(root: RadixNode, at: Names, kids: Branches, blocks: nat, p: Path)
    requires Linked(root, at, kids, blocks) && p in at && p != []
    ensures Parent(p) in at && at[p].tokens == p[|p| - 1] && at[p].parent == at[Parent(p)]
  {
    LinkedAt(root, at, kids, blocks, p);
  }
}
