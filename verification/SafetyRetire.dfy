/** Leaving the queues: publishing a finished sequence's blocks, releasing it, aborting. */
module SafetyRetire {
  import opened Numbers
  import opened Blocks
  import opened Paging
  import opened Decoding
  import opened Options
  import opened Radix
  import opened RadixLaws
  import opened Requests
  import opened Scheduling
  import opened Serving
  import opened Safety
  import opened SafetyMoves
  import opened SafetyAdmission
  import opened SafetyFeed

  /** The invariant while request k of the queues is on its way out: all but its exclusive hold on its blocks. */
  ghost predicate Leaving(cfg: Config, m: Model, e: State, k: nat) {
    && k < |Queued(e)|
    && MemoryOk(cfg, e)
    && ShapesOk(cfg, e)
    && (forall q :: q in Without(Queued(e), k) ==> PrivateOk(e, q) && AdoptedOk(cfg, e, q))
    && ViewsOk(cfg, m, e)
    && NodesOk(cfg, m, e)
    && OutputsOk(m, e)
    && IdsOk(e)
  }

  lemma WithoutMember(q: seq<Req>, k: nat, r: Req)
    requires k < |q| && r in Without(q, k)
    ensures r in q
  {
  }

  lemma SafeLeaving(cfg: Config, m: Model, e: State, k: nat)
    requires Safe(cfg, m, e) && k < |Queued(e)|
    ensures Leaving(cfg, m, e, k)
  {
    hide MemoryOk, ShapesOk, PrivateOk, AdoptedOk, ViewsOk, NodesOk, OutputsOk, IdsOk, Queued, Without;
    forall q | q in Without(Queued(e), k)
      ensures PrivateOk(e, q) && AdoptedOk(cfg, e, q)
    {
      WithoutMember(Queued(e), k, q);
    }
  }

  // ---- releasing

  /** e' is e after request k has released its blocks and left the queues as r'. */
  ghost predicate Dropped(e: State, e': State, k: nat, r': Req) {
    && k < |Queued(e)|
    && Queued(e') == Without(Queued(e), k)
    && e'.pool == FreeMany(e.pool, Queued(e)[k].Table())
    && e'.mem == e.mem && e'.tree == e.tree && e'.nextId == e.nextId
    && e'.done == e.done + [r']
    && (forall q :: q in e'.running ==> q in e.running)
    && (forall q :: q in e'.waiting ==> q in e.waiting)
  }

  lemma HeldAt(e: State, k: nat)
    requires k < |Queued(e)|
    ensures Held(e) == multiset(Queued(e)[k].Table()) + Others(e, k)
  {
    TablesSplit(Queued(e), k);
    hide Tables, NodeBlocks;
    Regroup(multiset(Queued(e)[k].Table()), Tables(Without(Queued(e), k)), multiset(NodeBlocks(e.tree.nodes)));
  }

  lemma DroppedHeld(e: State, e': State, k: nat, r': Req)
    requires Dropped(e, e', k, r')
    ensures Held(e') == Others(e, k)
    ensures forall b :: Held(e')[b] <= Held(e)[b]
  {
    HeldAt(e, k);
    hide Tables, NodeBlocks, Queued, Without;
  }

  lemma DroppedMemory(cfg: Config, e: State, e': State, k: nat, r': Req)
    requires Dropped(e, e', k, r') && MemoryOk(cfg, e)
    ensures MemoryOk(cfg, e')
    ensures |e'.pool.free| >= |e.pool.free|
  {
    HeldAt(e, k);
    DroppedHeld(e, e', k, r');
    hide TreeOk, Counts, Held, Others, Queued, Without;
    ReleaseCounts(e.pool, Queued(e)[k].Table(), Held(e), Held(e'));
    CountsFreeList(e'.pool, Held(e'));
  }

  lemma DroppedOwnership(cfg: Config, m: Model, e: State, e': State, k: nat, r': Req)
    requires Dropped(e, e', k, r') && MemoryOk(cfg, e) && ViewsOk(cfg, m, e)
    requires forall q :: q in Without(Queued(e), k) ==> PrivateOk(e, q) && AdoptedOk(cfg, e, q)
    ensures OwnershipOk(cfg, e') && ViewsOk(cfg, m, e')
  {
    DroppedMemory(cfg, e, e', k, r');
    DroppedHeld(e, e', k, r');
    hide MemoryOk, Held, ViewOk, PrivateOk, AdoptedOk, Queued, Without, FreeMany;
    forall q | q in Queued(e')
      ensures PrivateOk(e', q) && AdoptedOk(cfg, e', q) && ViewOk(cfg, m, e', q)
    {
      WithoutMember(Queued(e), k, q);
      LeftAlone(cfg, m, e, e', q);
    }
  }

  lemma LeftAlone(cfg: Config, m: Model, e: State, e': State, q: Req)
    requires q in Queued(e) && q in Queued(e') && PrivateOk(e, q) && AdoptedOk(cfg, e, q) && ViewOk(cfg, m, e, q)
    requires MemoryOk(cfg, e') && e'.mem == e.mem && e'.tree == e.tree
    requires forall b :: Held(e')[b] <= Held(e)[b]
    ensures PrivateOk(e', q) && AdoptedOk(cfg, e', q) && ViewOk(cfg, m, e', q)
  {
    assert Shaped(cfg.bs, StoreOf(e')) by { hide TreeOk, Counts, FreeListOk, Held, PrivateOk, ViewOk, Shaped; }
    hide MemoryOk, Shaped, Held, ViewOk, PrivateOk, Queued;
    PrivateFrame(e, e', q);
    ViewFrame(cfg, m, e, e', q);
  }

  lemma DroppedQueues(cfg: Config, m: Model, e: State, e': State, k: nat, r': Req)
    requires Dropped(e, e', k, r') && ShapesOk(cfg, e) && OutputsOk(m, e)
    requires OutputOk(m, r') && (r'.status == Finished || r'.status == Aborted)
    ensures ShapesOk(cfg, e') && OutputsOk(m, e')
  {
    hide RunningOk, WaitingOk, OutputOk, Queued, Without;
    forall q | q in Queued(e')
      ensures q in Queued(e)
    {
      WithoutMember(Queued(e), k, q);
    }
  }

  lemma DistinctWithout(q: seq<Req>, k: nat)
    requires k < |q| && Distinct(q)
    ensures Distinct(Without(q, k))
  {
    var w := Without(q, k);
    forall i, j | 0 <= i < j < |w|
      ensures w[i].id != w[j].id
    {
      var i', j' := if i < k then i else i + 1, if j < k then j else j + 1;
      assert w[i] == q[i'] && w[j] == q[j'];
    }
  }

  lemma DroppedIds(e: State, e': State, k: nat, r': Req)
    requires Dropped(e, e', k, r') && IdsOk(e)
    ensures IdsOk(e')
  {
    hide Queued;
    DistinctWithout(Queued(e), k);
    hide Distinct, Without;
    forall q | q in Queued(e')
      ensures q in Queued(e)
    {
      WithoutMember(Queued(e), k, q);
    }
  }

  lemma DroppedSafe(cfg: Config, m: Model, e: State, e': State, k: nat, r': Req)
    requires Leaving(cfg, m, e, k) && Dropped(e, e', k, r')
    requires OutputOk(m, r') && (r'.status == Finished || r'.status == Aborted)
    ensures Safe(cfg, m, e')
    ensures |e'.pool.free| >= |e.pool.free|
  {
    hide MemoryOk, ShapesOk, PrivateOk, AdoptedOk, ViewsOk, OutputsOk, OutputOk, IdsOk, Queued, Without, NodeOk;
    DroppedMemory(cfg, e, e', k, r');
    DroppedOwnership(cfg, m, e, e', k, r');
    DroppedQueues(cfg, m, e, e', k, r');
    DroppedIds(e, e', k, r');
    NodesFrame(cfg, m, e, e');
  }

  lemma WithoutConcat(a: seq<Req>, b: seq<Req>, i: nat)
    ensures i < |a| ==> Without(a + b, i) == Without(a, i) + b
    ensures i < |b| ==> Without(a + b, |a| + i) == a + Without(b, i)
  {
  }

  lemma DropIs(e: State, i: nat, r': Req)
    requires i < |e.running|
    ensures Dropped(e, Drop(e, i, r'), i, r')
  {
    WithoutConcat(e.running, e.waiting, i);
  }

  // ---- publishing into the prefix cache

  /** Blocks of one table that are private or adopted are pairwise different. */
  lemma TwiceInTable(t: seq<nat>, a: nat, b: nat)
    requires a < b < |t| && t[a] == t[b]
    ensures multiset(t)[t[a]] >= 2
  {
    assert t == t[..b] + t[b..];
    assert t[a] in t[..b] && t[b] in t[b..];
    assert multiset(t) == multiset(t[..b]) + multiset(t[b..]);
    assert t[..b][a] == t[a] && t[b..][0] == t[b];
  }

  lemma PrivateOnce(cfg: Config, e: State, r: Req, a: nat, b: nat)
    requires r in Queued(e) && PrivateOk(e, r) && a < b < |r.Table()| && r.Adopted() <= b
    ensures r.Table()[a] != r.Table()[b]
  {
    if r.Table()[a] == r.Table()[b] {
      TablesMember(Queued(e), r);
      TwiceInTable(r.Table(), a, b);
    }
  }

  /** The path a finished sequence is registered under spells its computed tokens, block by block. */
  function PublishedPath(cfg: Config, r: Req): Path
    requires cfg.bs > 0
  {
    InsertPath(cfg.bs, r.AllTokens(), FullBlocks(cfg, r))
  }

  lemma PublishedIs(cfg: Config, r: Req)
    requires cfg.bs > 0 && RunningOk(cfg, r) && r.status == Finished
    ensures var n := r.computed / cfg.bs;
      && n <= |r.Table()| && FullBlocks(cfg, r) == r.Table()[..n]
      && n * cfg.bs <= r.computed < |r.AllTokens()|
      && PublishedPath(cfg, r) == Chunks(cfg.bs, r.AllTokens(), n)
  {
    var n, all := r.computed / cfg.bs, |r.AllTokens()|;
    assert r.computed == all - 1;
    if |r.Table()| < n {
      MulMono(|r.Table()|, n - 1, cfg.bs);
    }
    PageAtLeast(all, n, cfg.bs);
  }

  lemma PathPrefix(cfg: Config, r: Req, n: nat)
    requires cfg.bs > 0 && RunningOk(cfg, r) && r.status == Finished
    requires n <= |PublishedPath(cfg, r)|
    ensures n * cfg.bs <= r.computed < |r.AllTokens()| && n <= |r.Table()|
    ensures PublishedPath(cfg, r)[..n] == Chunks(cfg.bs, r.AllTokens(), n)
  {
    PublishedIs(cfg, r);
    var k := r.computed / cfg.bs;
    MulMono(n, k, cfg.bs);
    ChunksPrefix(cfg.bs, r.AllTokens(), k, n);
  }

  lemma {:induction false} ChunksOfPrefix(bs: nat, toks: seq<Token>, more: seq<Token>, n: nat)
    requires n * bs <= |toks|
    ensures n * bs <= |toks + more| && Chunks(bs, toks + more, n) == Chunks(bs, toks, n)
    decreases n
  {
    if n > 0 {
      MulMono(n - 1, n, bs);
      ChunksOfPrefix(bs, toks, more, n - 1);
      assert (toks + more)[(n - 1) * bs..n * bs] == toks[(n - 1) * bs..n * bs];
    }
  }

  /** Adopted blocks sit in the trie along the published path. */
  lemma AdoptedOnPath(cfg: Config, e: State, r: Req, n: nat)
    requires cfg.bs > 0 && RunningOk(cfg, r) && r.status == Finished && AdoptedOk(cfg, e, r)
    requires 0 < n <= |PublishedPath(cfg, r)| && n <= r.Adopted()
    ensures n <= |r.Table()|
    ensures PublishedPath(cfg, r)[..n] in e.tree.nodes
    ensures e.tree.nodes[PublishedPath(cfg, r)[..n]].block == r.Table()[n - 1]
  {
    PathPrefix(cfg, r, n);
    MulMono(n, r.Adopted(), cfg.bs);
    ChunksOfPrefix(cfg.bs, r.prompt, r.output, n);
  }

  lemma PublishedBlocks(cfg: Config, r: Req)
    requires cfg.bs > 0 && RunningOk(cfg, r) && r.status == Finished
    ensures |FullBlocks(cfg, r)| == |PublishedPath(cfg, r)| <= |r.Table()|
    ensures forall n :: 0 <= n < |FullBlocks(cfg, r)| ==> FullBlocks(cfg, r)[n] == r.Table()[n]
  {
    PublishedIs(cfg, r);
  }

  lemma PublishedUnregistered(cfg: Config, e: State, r: Req)
    requires cfg.bs > 0 && RunningOk(cfg, r) && r.status == Finished && r in Queued(e)
    requires PrivateOk(e, r) && AdoptedOk(cfg, e, r)
    ensures |PublishedPath(cfg, r)| <= |FullBlocks(cfg, r)|
    ensures Unregistered(e.tree.nodes, PublishedPath(cfg, r), FullBlocks(cfg, r), 0)
  {
    hide RunningOk, Held, NodeBlocks, AdoptedOk, FullBlocks, PublishedPath, Queued;
    PublishedBlocks(cfg, r);
    var path, blocks := PublishedPath(cfg, r), FullBlocks(cfg, r);
    forall n | 0 < n <= |path| && path[..n] !in e.tree.nodes
      ensures blocks[n - 1] !in NodeBlocks(e.tree.nodes)
    {
      if n <= r.Adopted() {
        AdoptedOnPath(cfg, e, r, n);
      }
      HeldMember(e, r, n - 1);
    }
  }

  lemma PublishedDistinct(cfg: Config, e: State, r: Req)
    requires cfg.bs > 0 && RunningOk(cfg, r) && r.status == Finished && r in Queued(e)
    requires PrivateOk(e, r) && AdoptedOk(cfg, e, r) && OneBlockEach(e.tree.nodes)
    ensures forall a, b :: 0 <= a < b < |FullBlocks(cfg, r)| ==> FullBlocks(cfg, r)[a] != FullBlocks(cfg, r)[b]
  {
    hide RunningOk, Held, NodeBlocks, AdoptedOk, FullBlocks, PublishedPath, Queued, PrivateOk;
    PublishedBlocks(cfg, r);
    var path, blocks := PublishedPath(cfg, r), FullBlocks(cfg, r);
    forall a, b | 0 <= a < b < |blocks|
      ensures blocks[a] != blocks[b]
    {
      if b < r.Adopted() {
        AdoptedOnPath(cfg, e, r, a + 1);
        AdoptedOnPath(cfg, e, r, b + 1);
        assert |path[..a + 1]| != |path[..b + 1]|;
      } else {
        PrivateOnce(cfg, e, r, a, b);
      }
    }
  }

  /** e with r's full blocks registered, the cap not yet enforced. */
  function Published(cfg: Config, e: State, r: Req): State
    requires cfg.bs > 0
  {
    var c := Register(cfg.bs, CacheOf(e), r.AllTokens(), FullBlocks(cfg, r));
    e.(tree := c.tree, pool := c.pool)
  }

  /** The trie about to take the path. */
  function Ticked(e: State): Cache {
    CacheOf(e).(tree := e.tree.(clock := e.tree.clock + 1))
  }

  lemma PublishedTree(cfg: Config, e: State, r: Req)
    requires cfg.bs > 0 && RunningOk(cfg, r) && r.status == Finished && r in Queued(e)
    requires TreeOk(e.tree) && PrivateOk(e, r) && AdoptedOk(cfg, e, r)
    ensures TreeOk(Published(cfg, e, r).tree)
  {
    PublishedUnregistered(cfg, e, r);
    PublishedDistinct(cfg, e, r);
    PublishedBlocks(cfg, r);
    var path, blocks, now := PublishedPath(cfg, r), FullBlocks(cfg, r), e.tree.clock + 1;
    TickedInserting(e, path);
    hide RunningOk, Unregistered, Inserting, TreeOk, PrivateOk, AdoptedOk, FullBlocks, InsertPath, Queued;
    InsertFromKeepsTree(Ticked(e), path, blocks, 0, now);
  }

  lemma TickedInserting(e: State, path: Path)
    requires TreeOk(e.tree)
    ensures Inserting(Ticked(e).tree, path, 0, e.tree.clock + 1)
  {
    hide PrefixClosed, StampedTogether, OneBlockEach;
    assert PrefixClosed(Ticked(e).tree.nodes);
    assert StampedTogether(Ticked(e).tree) by { TickStamps(e); }
  }

  lemma TickStamps(e: State)
    requires StampedTogether(e.tree)
    ensures StampedTogether(Ticked(e).tree)
  {
  }

  lemma PublishedCounts(cfg: Config, e: State, r: Req)
    requires cfg.bs > 0 && RunningOk(cfg, r) && r.status == Finished && r in Queued(e)
    requires Counts(e.pool, Held(e)) && OneBlockEach(e.tree.nodes) && PrivateOk(e, r) && AdoptedOk(cfg, e, r)
    ensures var e' := Published(cfg, e, r);
      && Counts(e'.pool, Held(e')) && |e'.pool.ref| == |e.pool.ref| && e'.pool.free == e.pool.free
  {
    hide *;
    PublishedUnregistered(cfg, e, r);
    PublishedDistinct(cfg, e, r);
    FullBlocksHeld(cfg, e, r);
    PublishedQueue(cfg, e, r);
    HeldIsCached(e, Ticked(e));
    InsertFromCounts(Ticked(e), PublishedPath(cfg, r), FullBlocks(cfg, r), 0, e.tree.clock + 1, Tables(Queued(e)));
    PublishedIsInsertion(cfg, e, r);
    HeldIsCached(Published(cfg, e, r), CacheOf(Published(cfg, e, r)));
  }

  lemma HeldIsCached(e: State, c: Cache)
    requires c == Ticked(e) || c == CacheOf(e)
    ensures c.pool == e.pool && c.tree.nodes == e.tree.nodes
    ensures CacheCounts(c, Tables(Queued(e))) <==> Counts(e.pool, Held(e))
  {
    hide Counts, Tables, NodeBlocks, Queued;
  }

  lemma PublishedIsInsertion(cfg: Config, e: State, r: Req)
    requires cfg.bs > 0
    ensures CacheOf(Published(cfg, e, r)) ==
      InsertFrom(Ticked(e), PublishedPath(cfg, r), FullBlocks(cfg, r), 0, e.tree.clock + 1)
    ensures CacheOf(Published(cfg, e, r)).pool == Published(cfg, e, r).pool
  {
    hide InsertFrom, InsertPath, FullBlocks;
  }

  lemma FullBlocksHeld(cfg: Config, e: State, r: Req)
    requires cfg.bs > 0 && RunningOk(cfg, r) && r.status == Finished && r in Queued(e)
    ensures |FullBlocks(cfg, r)| == |PublishedPath(cfg, r)|
    ensures forall a :: 0 <= a < |FullBlocks(cfg, r)| ==> FullBlocks(cfg, r)[a] in Tables(Queued(e))
  {
    PublishedBlocks(cfg, r);
    hide RunningOk, FullBlocks, PublishedPath, Queued, Tables;
    forall a | 0 <= a < |FullBlocks(cfg, r)|
      ensures FullBlocks(cfg, r)[a] in Tables(Queued(e))
    {
      HeldMember(e, r, a);
    }
  }

  lemma PublishedQueue(cfg: Config, e: State, r: Req)
    requires cfg.bs > 0
    ensures var e' := Published(cfg, e, r);
      && Queued(e') == Queued(e) && e'.mem == e.mem && e'.running == e.running && e'.waiting == e.waiting
      && e'.done == e.done && e'.nextId == e.nextId
  {
  }

  lemma PublishedMemory(cfg: Config, e: State, r: Req)
    requires cfg.bs > 0 && RunningOk(cfg, r) && r.status == Finished && r in Queued(e)
    requires MemoryOk(cfg, e) && PrivateOk(e, r) && AdoptedOk(cfg, e, r)
    ensures MemoryOk(cfg, Published(cfg, e, r))
  {
    hide RunningOk, PrivateOk, AdoptedOk, Held, Counts, PrefixClosed, Aged, StampedTogether, OneBlockEach, FreeListOk,
      Published, Queued;
    PublishedTree(cfg, e, r);
    PublishedCounts(cfg, e, r);
    PublishedQueue(cfg, e, r);
    CountsFreeList(Published(cfg, e, r).pool, Held(Published(cfg, e, r)));
    hide TreeOk;
  }

  /** Old nodes keep their blocks; a new node is on the published path, with the table's block. */
  lemma PublishedNodes(cfg: Config, e: State, r: Req, p: Path)
    requires cfg.bs > 0 && RunningOk(cfg, r) && r.status == Finished
    ensures var nodes, nodes', path := e.tree.nodes, Published(cfg, e, r).tree.nodes, PublishedPath(cfg, r);
      && (p in nodes ==> p in nodes' && nodes'[p].block == nodes[p].block)
      && (p in nodes' && p !in nodes ==>
            0 < |p| <= |path| && |p| <= |r.Table()| && p == path[..|p|] && nodes'[p].block == r.Table()[|p| - 1])
  {
    PublishedBlocks(cfg, r);
    hide RunningOk, FullBlocks, InsertPath, InsertFrom;
    InsertFromNodes(Ticked(e), PublishedPath(cfg, r), FullBlocks(cfg, r), 0, e.tree.clock + 1, p);
  }

  lemma PublishedHeld(cfg: Config, e: State, r: Req, b: nat)
    requires cfg.bs > 0 && RunningOk(cfg, r) && r.status == Finished && b !in r.Table()
    ensures Held(Published(cfg, e, r))[b] <= Held(e)[b]
  {
    var e' := Published(cfg, e, r);
    PublishedQueue(cfg, e, r);
    hide RunningOk, Published, Tables, Queued;
    if b in NodeBlocks(e'.tree.nodes) {
      var p :| p in e'.tree.nodes && e'.tree.nodes[p].block == b;
      PublishedNodes(cfg, e, r, p);
      assert b in NodeBlocks(e.tree.nodes);
    }
  }

  lemma PublishedOthers(cfg: Config, e: State, k: nat, q: Req)
    requires cfg.bs > 0 && k < |Queued(e)| && q in Without(Queued(e), k)
    requires RunningOk(cfg, Queued(e)[k]) && Queued(e)[k].status == Finished
    requires PrivateOk(e, q) && AdoptedOk(cfg, e, q)
    ensures var e' := Published(cfg, e, Queued(e)[k]);
      PrivateOk(e', q) && AdoptedOk(cfg, e', q)
  {
    var r, e' := Queued(e)[k], Published(cfg, e, Queued(e)[k]);
    HeldAt(e, k);
    WithoutMember(Queued(e), k, q);
    PublishedQueue(cfg, e, r);
    hide RunningOk, Published, Held, Queued, PrivateOk, Others, Without, PublishedPath;
    forall i | q.Adopted() <= i < |q.Table()|
      ensures Held(e')[q.Table()[i]] <= Held(e)[q.Table()[i]]
    {
      NotMine(e, k, q, i);
      PublishedHeld(cfg, e, r, q.Table()[i]);
    }
    PrivateFrame(e, e', q);
    forall n | 0 < n <= q.Adopted() && n * cfg.bs <= |q.prompt| && n <= |q.Table()|
      ensures Chunks(cfg.bs, q.prompt, n) in e'.tree.nodes
      ensures e'.tree.nodes[Chunks(cfg.bs, q.prompt, n)].block == q.Table()[n - 1]
    {
      PublishedNodes(cfg, e, r, Chunks(cfg.bs, q.prompt, n));
    }
  }

  /** A private block of one request is not in another's table. */
  lemma NotMine(e: State, k: nat, q: Req, i: nat)
    requires k < |Queued(e)| && q in Without(Queued(e), k) && PrivateOk(e, q)
    requires q.Adopted() <= i < |q.Table()|
    ensures q.Table()[i] !in Queued(e)[k].Table()
  {
    HeldAt(e, k);
    TablesMember(Without(Queued(e), k), q);
    var b := q.Table()[i];
    assert b in multiset(q.Table());
    assert b in Others(e, k);
    hide Queued, Tables, Others, Without;
    assert multiset(Queued(e)[k].Table())[b] == 0;
  }

  // ---- published blocks hold what their paths spell

  lemma BlockSlice(bs: nat, st: Store, table: seq<nat>, n: nat, total: nat)
    requires Shaped(bs, st) && InRange(st, table) && 0 < n <= |table| && n * bs <= total <= |table| * bs
    ensures 0 <= (n - 1) * bs <= n * bs
    ensures st.mem[table[n - 1]] == Gather(bs, st, table, total)[..n * bs][(n - 1) * bs..]
  {
    MulMono(n - 1, n, bs);
    GatherBlock(bs, st, table, n - 1);
    GatherPrefix(bs, st, table, n * bs, total);
    hide Gather;
  }

  lemma PublishedNodeOk(cfg: Config, m: Model, e: State, r: Req, p: Path)
    requires cfg.bs > 0 && RunningOk(cfg, r) && r.status == Finished && ViewOk(cfg, m, e, r)
    requires p in Published(cfg, e, r).tree.nodes && p !in e.tree.nodes
    ensures NodeOk(cfg, m, Published(cfg, e, r), p)
  {
    var e', all, n, bs := Published(cfg, e, r), r.AllTokens(), |p|, cfg.bs;
    PublishedNodes(cfg, e, r, p);
    PublishedQueue(cfg, e, r);
    PathPrefix(cfg, r, n);
    SpellChunks(bs, all, n);
    hide RunningOk, Published, PublishedPath, Gather, Spell, Columns, Chunks;
    BlockSlice(bs, StoreOf(e), r.Table(), n, r.computed);
    ColumnsPrefix(m, all[..r.computed], n * bs);
    assert all[..r.computed][..n * bs] == all[..n * bs];
  }

  lemma PublishedLeaving(cfg: Config, m: Model, e: State, k: nat)
    requires cfg.bs > 0 && Safe(cfg, m, e) && k < |Queued(e)|
    requires RunningOk(cfg, Queued(e)[k]) && Queued(e)[k].status == Finished
    ensures Leaving(cfg, m, Published(cfg, e, Queued(e)[k]), k)
  {
    var r, e' := Queued(e)[k], Published(cfg, e, Queued(e)[k]);
    SafeLeaving(cfg, m, e, k);
    PublishedQueue(cfg, e, r);
    assert r in Queued(e);
    assert PrivateOk(e, r) && AdoptedOk(cfg, e, r) && ViewOk(cfg, m, e, r);
    PublishedMemory(cfg, e, r);
    SameQueues(cfg, m, e, e');
    PublishedViews(cfg, m, e, r);
    hide Safe, MemoryOk, ShapesOk, PrivateOk, AdoptedOk, ViewsOk, NodesOk, OutputsOk, IdsOk, Queued, Without,
      RunningOk, Published, ViewOk;
    forall q | q in Without(Queued(e'), k)
      ensures PrivateOk(e', q) && AdoptedOk(cfg, e', q)
    {
      PublishedOthers(cfg, e, k, q);
    }
  }

  lemma PublishedViews(cfg: Config, m: Model, e: State, r: Req)
    requires cfg.bs > 0 && ViewsOk(cfg, m, e) && NodesOk(cfg, m, e) && r in Queued(e) && ViewOk(cfg, m, e, r)
    requires RunningOk(cfg, r) && r.status == Finished
    requires Shaped(cfg.bs, StoreOf(Published(cfg, e, r)))
    ensures ViewsOk(cfg, m, Published(cfg, e, r)) && NodesOk(cfg, m, Published(cfg, e, r))
  {
    var e' := Published(cfg, e, r);
    PublishedQueue(cfg, e, r);
    hide Queued, ViewOk, RunningOk, Published, Shaped;
    forall q | q in Queued(e')
      ensures ViewOk(cfg, m, e', q)
    {
      ViewFrame(cfg, m, e, e', q);
    }
    forall p | p in e'.tree.nodes
      ensures NodeOk(cfg, m, e', p)
    {
      if p in e.tree.nodes {
        assert NodeOk(cfg, m, e, p);
        PublishedNodes(cfg, e, r, p);
      } else {
        PublishedNodeOk(cfg, m, e, r, p);
      }
    }
  }

  /** Enforcing the cap, with one request on its way out. */
  lemma ReclaimLeaving(cfg: Config, m: Model, e: State, k: nat, n: nat)
    requires cfg.bs > 0 && Leaving(cfg, m, e, k)
    ensures Leaving(cfg, m, Reclaim(e, n), k)
    ensures Queued(Reclaim(e, n)) == Queued(e)
  {
    var e' := Reclaim(e, n);
    ReclaimMemory(cfg, e, n);
    ReclaimViews(cfg, m, e, n);
    SameQueues(cfg, m, e, e');
    EvictKeepsBlocks(cfg, e, n);
    hide MemoryOk, ShapesOk, PrivateOk, AdoptedOk, ViewsOk, NodesOk, OutputsOk, IdsOk, Queued, Without, Reclaim,
      Victims, Pinned;
    forall q | q in Without(Queued(e'), k)
      ensures PrivateOk(e', q) && AdoptedOk(cfg, e', q)
    {
      WithoutMember(Queued(e), k, q);
      ReclaimKeepsOwner(cfg, e, n, q);
    }
  }

  lemma ReclaimQueues(e: State, n: nat)
    ensures var e' := Reclaim(e, n);
      && e'.running == e.running && e'.waiting == e.waiting && e'.done == e.done && e'.nextId == e.nextId
        && e'.mem == e.mem
  {
    hide Evict;
  }

  lemma CommitPrefixIs(cfg: Config, e: State, r: Req)
    requires cfg.bs > 0
    ensures var e1 := Published(cfg, e, r);
      CommitPrefix(cfg, e, r) ==
        if !cfg.caching || r.kv.None? then e
        else if e1.tree.cached > cfg.maxCached then Reclaim(e1, e1.tree.cached - cfg.maxCached) else e1
  {
    hide Register, FullBlocks, Evict;
  }

  /** After a finished request has published its blocks the cache is within its cap, or every leaf is in use. */
  lemma CommitCapped(cfg: Config, m: Model, e: State, i: nat)
    requires cfg.bs > 0 && cfg.caching && Safe(cfg, m, e) && i < |e.running| && e.running[i].status == Finished
    ensures var e' := CommitPrefix(cfg, e, e.running[i]);
      e'.tree.cached <= cfg.maxCached || EveryLeafPinned(CacheOf(e'))
  {
    hide *;
    var r := e.running[i];
    var e1 := Published(cfg, e, r);
    QueuedAt(e, i);
    RunningOwner(cfg, m, e, i);
    SafeRunning(cfg, m, e, i);
    CommitPrefixIs(cfg, e, r);
    RunningHasKV(cfg, r);
    PublishedMemory(cfg, e, r);
    CachedCounts(cfg, e1);
    if e1.tree.cached > cfg.maxCached {
      EvictCapped(CacheOf(e1), e1.tree.cached - cfg.maxCached, Tables(Queued(e1)));
      ReclaimedCache(e1, e1.tree.cached - cfg.maxCached);
    }
  }

  lemma RunningOwner(cfg: Config, m: Model, e: State, i: nat)
    requires Safe(cfg, m, e) && i < |e.running|
    ensures e.running[i] in Queued(e) && MemoryOk(cfg, e) && PrivateOk(e, e.running[i])
    ensures AdoptedOk(cfg, e, e.running[i])
  {
    hide MemoryOk, ShapesOk, ViewsOk, NodesOk, OutputsOk, IdsOk, PrivateOk, AdoptedOk;
    assert Queued(e)[i] == e.running[i];
  }

  lemma RunningHasKV(cfg: Config, r: Req)
    requires RunningOk(cfg, r)
    ensures r.kv.Some?
  {
  }

  lemma CachedCounts(cfg: Config, e: State)
    requires MemoryOk(cfg, e)
    ensures TreeOk(CacheOf(e).tree) && CacheCounts(CacheOf(e), Tables(Queued(e))) && CacheOf(e).tree == e.tree
  {
    HeldIsCached(e, CacheOf(e));
    hide TreeOk, Counts, Held, Tables, Queued, Shaped, FreeListOk, CacheCounts;
  }

  lemma ReclaimedCache(e: State, k: nat)
    ensures CacheOf(Reclaim(e, k)) == Evict(CacheOf(e), k) && Reclaim(e, k).tree == Evict(CacheOf(e), k).tree
  {
    hide Evict;
  }

  lemma CommitPrefixLeaving(cfg: Config, m: Model, e: State, i: nat)
    requires cfg.bs > 0 && Safe(cfg, m, e) && i < |e.running| && e.running[i].status == Finished
    ensures var e' := CommitPrefix(cfg, e, e.running[i]);
      && Leaving(cfg, m, e', i) && Queued(e') == Queued(e) && e'.running == e.running && e'.waiting == e.waiting
      && e'.done == e.done && e'.nextId == e.nextId
  {
    hide *;
    var r := e.running[i];
    QueuedAt(e, i);
    SafeLeaving(cfg, m, e, i);
    SafeRunning(cfg, m, e, i);
    CommitPrefixIs(cfg, e, r);
    if cfg.caching && r.kv.Some? {
      var e1 := Published(cfg, e, r);
      PublishedLeaving(cfg, m, e, i);
      PublishedQueue(cfg, e, r);
      if e1.tree.cached > cfg.maxCached {
        ReclaimQueues(e1, e1.tree.cached - cfg.maxCached);
        ReclaimLeaving(cfg, m, e1, i, e1.tree.cached - cfg.maxCached);
      }
    }
  }

  lemma QueuedAt(e: State, i: nat)
    requires i < |e.running|
    ensures |Queued(e)| == |e.running| + |e.waiting| && Queued(e)[i] == e.running[i]
  {
  }

  lemma SafeRunning(cfg: Config, m: Model, e: State, i: nat)
    requires Safe(cfg, m, e) && i < |e.running|
    ensures RunningOk(cfg, e.running[i])
  {
    hide MemoryOk, OwnershipOk, ViewsOk, NodesOk, OutputsOk, IdsOk, RunningOk;
  }

  // ---- retiring

  lemma RetireSafe(cfg: Config, m: Model, e: State, i: nat)
    requires cfg.bs > 0 && Safe(cfg, m, e) && i < |e.running| && e.running[i].IsFinished()
    ensures Safe(cfg, m, Retire(cfg, e, i))
    ensures Retire(cfg, e, i).running == Without(e.running, i) && Retire(cfg, e, i).waiting == e.waiting
    ensures Retire(cfg, e, i).done == e.done + [e.running[i].(kv := None)]
  {
    var r := e.running[i];
    FinishedOutput(cfg, m, e, i);
    hide Safe, Leaving, CommitPrefix, OutputOk, Dropped;
    CommitPrefixLeaving(cfg, m, e, i);
    var e1 := CommitPrefix(cfg, e, r);
    DropIs(e1, i, r.(kv := None));
    DroppedSafe(cfg, m, e1, Drop(e1, i, r.(kv := None)), i, r.(kv := None));
  }

  lemma FinishedOutput(cfg: Config, m: Model, e: State, i: nat)
    requires Safe(cfg, m, e) && i < |e.running| && e.running[i].IsFinished()
    ensures e.running[i].status == Finished && OutputOk(m, e.running[i].(kv := None))
  {
    hide MemoryOk, OwnershipOk, ViewsOk, NodesOk, IdsOk, Continue, PagedOk;
    RunningIsQueued(e, i);
    assert RunningOk(cfg, e.running[i]);
  }

  /** The requests of a queue that are not finished, in order. */
  function Unfinished(q: seq<Req>): (u: seq<Req>)
    ensures forall r :: r in u ==> r in q && !r.IsFinished()
  {
    if q == [] then []
    else (if q[0].IsFinished() then [] else [q[0]]) + Unfinished(q[1..])
  }

  /** What retiring leaves of the finished requests of a queue: their records without KV. */
  function Retired(q: seq<Req>): seq<Req> {
    if q == [] then []
    else (if q[0].IsFinished() then [q[0].(kv := None)] else []) + Retired(q[1..])
  }

  lemma RetiredHead(q: seq<Req>, i: nat)
    requires i < |q|
    ensures Retired(q[i..]) == (if q[i].IsFinished() then [q[i].(kv := None)] else []) + Retired(q[i + 1..])
  {
    assert q[i..][0] == q[i] && q[i..][1..] == q[i + 1..];
  }

  lemma UnfinishedHead(q: seq<Req>, i: nat)
    requires i < |q|
    ensures Unfinished(q[i..]) == (if q[i].IsFinished() then [] else [q[i]]) + Unfinished(q[i + 1..])
  {
    assert q[i..][0] == q[i] && q[i..][1..] == q[i + 1..];
  }

  lemma UnfinishedStep(q: seq<Req>, i: nat)
    requires i <= |q|
    ensures i == |q| ==> q[..i] + Unfinished(q[i..]) == q
    ensures i < |q| && q[i].IsFinished() ==>
      |Without(q, i)| == |q| - 1 && Without(q, i)[..i] + Unfinished(Without(q, i)[i..]) == q[..i] + Unfinished(q[i..])
    ensures i < |q| && !q[i].IsFinished() ==> q[..i + 1] + Unfinished(q[i + 1..]) == q[..i] + Unfinished(q[i..])
  {
    if i == |q| {
      assert q[..i] == q && q[i..] == [];
    } else {
      UnfinishedHead(q, i);
      hide Unfinished;
      var rest := Unfinished(q[i + 1..]);
      if q[i].IsFinished() {
        assert [] + rest == rest;
        assert Without(q, i)[..i] == q[..i] && Without(q, i)[i..] == q[i + 1..];
      } else {
        assert q[..i + 1] + rest == q[..i] + ([q[i]] + rest);
      }
    }
  }

  lemma NoneRetired(q: seq<Req>, i: nat)
    requires i <= |q|
    ensures i == |q| ==> Retired(q[i..]) == [] && forall d: seq<Req> :: d + Retired(q[i..]) == d
  {
  }

  lemma WithoutTail(q: seq<Req>, i: nat)
    requires i < |q|
    ensures |Without(q, i)| == |q| - 1 && Without(q, i)[i..] == q[i + 1..]
  {
  }

  /** Retiring takes out exactly the finished requests and keeps the order of the rest. */
  lemma {:induction false} RetireFromSafe(cfg: Config, m: Model, e: State, i: nat)
    requires cfg.bs > 0 && Safe(cfg, m, e) && i <= |e.running|
    ensures var e' := RetireFrom(cfg, e, i);
      && Safe(cfg, m, e') && e'.waiting == e.waiting && e'.nextId == e.nextId
      && e'.running == e.running[..i] + Unfinished(e.running[i..])
      && e'.done == e.done + Retired(e.running[i..])
    decreases |e.running| - i
  {
    hide Safe, Retire, Unfinished, Without, Retired;
    UnfinishedStep(e.running, i);
    NoneRetired(e.running, i);
    if i < |e.running| {
      RetiredHead(e.running, i);
      var rest := Retired(e.running[i + 1..]);
      if e.running[i].IsFinished() {
        RetireSafe(cfg, m, e, i);
        RetireIds(cfg, e, i);
        WithoutTail(e.running, i);
        RetireFromSafe(cfg, m, Retire(cfg, e, i), i);
        assert e.done + [e.running[i].(kv := None)] + rest == e.done + ([e.running[i].(kv := None)] + rest);
      } else {
        RetireFromSafe(cfg, m, e, i + 1);
        assert [] + rest == rest;
      }
    }
  }

  lemma RetireIds(cfg: Config, e: State, i: nat)
    requires cfg.bs > 0 && i < |e.running|
    ensures Retire(cfg, e, i).nextId == e.nextId
  {
    hide Insert, FullBlocks;
  }

  // ---- abort and submission

  lemma AbortedOutput(m: Model, r: Req)
    requires OutputOk(m, r)
    ensures OutputOk(m, r.(kv := None, status := Aborted))
  {
    hide Continue;
  }

  lemma AbortSafe(cfg: Config, m: Model, e: State, id: nat)
    requires Safe(cfg, m, e) && Settled(e)
    ensures Safe(cfg, m, Abort(e, id)) && Settled(Abort(e, id))
  {
    hide *;
    var i, j := Find(e.waiting, id), Find(e.running, id);
    AbortUnknown(e, id);
    if i < |e.waiting| || j < |e.running| {
      AbortIs(e, id);
      var k := if i < |e.waiting| then |e.running| + i else j;
      QueuedOutput(cfg, m, e, k);
      AbortedOutput(m, Queued(e)[k]);
      SafeLeaving(cfg, m, e, k);
      DroppedSafe(cfg, m, e, Abort(e, id), k, Queued(e)[k].(kv := None, status := Aborted));
      DroppedSettled(e, Abort(e, id), k, Queued(e)[k].(kv := None, status := Aborted));
    }
  }

  lemma AbortUnknown(e: State, id: nat)
    ensures Find(e.waiting, id) <= |e.waiting| && Find(e.running, id) <= |e.running|
    ensures Find(e.waiting, id) == |e.waiting| && Find(e.running, id) == |e.running| ==> Abort(e, id) == e
  {
    hide Find;
  }

  lemma QueuedOutput(cfg: Config, m: Model, e: State, k: nat)
    requires Safe(cfg, m, e) && k < |Queued(e)|
    ensures OutputOk(m, Queued(e)[k])
  {
    hide MemoryOk, OwnershipOk, ViewsOk, NodesOk, IdsOk, ShapesOk, OutputOk, Queued;
    assert Queued(e)[k] in Queued(e);
  }

  lemma DroppedSettled(e: State, e': State, k: nat, r': Req)
    requires Settled(e) && Dropped(e, e', k, r')
    ensures Settled(e')
  {
    hide Queued, Without;
  }

  lemma AbortIs(e: State, id: nat)
    requires Find(e.waiting, id) < |e.waiting| || Find(e.running, id) < |e.running|
    ensures var i, j := Find(e.waiting, id), Find(e.running, id);
      var k := if i < |e.waiting| then |e.running| + i else j;
      && |Queued(e)| == |e.running| + |e.waiting|
      && Dropped(e, Abort(e, id), k, Queued(e)[k].(kv := None, status := Aborted))
  {
    var i, j := Find(e.waiting, id), Find(e.running, id);
    var k := if i < |e.waiting| then |e.running| + i else j;
    hide Find, FreeMany;
    assert Queued(Abort(e, id)) == Without(Queued(e), k) by {
      WithoutConcat(e.running, e.waiting, if i < |e.waiting| then i else j);
    }
  }

  lemma FreshRequest(cfg: Config, m: Model, e: State, prompt: seq<Token>, maxTokens: nat, ignoreEos: bool)
    requires Shaped(cfg.bs, StoreOf(e)) && prompt != [] && maxTokens > 0
    ensures var r := NewRequest(e.nextId, prompt, maxTokens, ignoreEos);
      && WaitingOk(cfg, r) && OutputOk(m, r) && r.Table() == []
      && PrivateOk(e, r) && AdoptedOk(cfg, e, r) && ViewOk(cfg, m, e, r)
  {
    var r := NewRequest(e.nextId, prompt, maxTokens, ignoreEos);
    BareRequest(cfg, m, e, r);
    assert r.AllTokens() == prompt;
    hide ViewOk, Continue;
  }

  /** e' is e with r appended to the waiting queue. */
  ghost predicate Arrived(e: State, e': State, r: Req) {
    e' == e.(waiting := e.waiting + [r], nextId := e.nextId + 1) && r.Table() == [] && r.id == e.nextId
  }

  lemma ArrivedHeld(e: State, e': State, r: Req)
    requires Arrived(e, e', r)
    ensures Held(e') == Held(e) && Queued(e') == Queued(e) + [r]
  {
    assert Queued(e') == Queued(e) + [r];
    TablesConcat(Queued(e), [r]);
    TablesOne(r);
    hide Tables, NodeBlocks, Queued;
  }

  lemma ArrivedOwnership(cfg: Config, m: Model, e: State, e': State, r: Req)
    requires Arrived(e, e', r) && OwnershipOk(cfg, e) && ViewsOk(cfg, m, e)
    requires PrivateOk(e', r) && AdoptedOk(cfg, e', r) && ViewOk(cfg, m, e', r)
    ensures OwnershipOk(cfg, e') && ViewsOk(cfg, m, e')
  {
    ArrivedHeld(e, e', r);
    hide Held, Queued;
    forall q | q in Queued(e')
      ensures PrivateOk(e', q) && AdoptedOk(cfg, e', q) && ViewOk(cfg, m, e', q)
    {
      if q != r {
        assert q in Queued(e);
        SameOwner(cfg, m, e, e', q, q);
      }
    }
  }

  lemma ArrivedQueues(cfg: Config, m: Model, e: State, e': State, r: Req)
    requires Arrived(e, e', r) && ShapesOk(cfg, e) && OutputsOk(m, e) && IdsOk(e)
    requires WaitingOk(cfg, r) && OutputOk(m, r)
    ensures ShapesOk(cfg, e') && OutputsOk(m, e') && IdsOk(e')
  {
    ArrivedHeld(e, e', r);
    hide Held, RunningOk, WaitingOk, OutputOk;
    assert forall q :: q in Queued(e') ==> q == r || q in Queued(e);
  }

  lemma SubmitSafe(cfg: Config, m: Model, e: State, prompt: seq<Token>, maxTokens: int, ignoreEos: bool)
    requires Safe(cfg, m, e)
    ensures Safe(cfg, m, Submit(cfg, e, prompt, maxTokens, ignoreEos))
  {
    if Acceptable(cfg, prompt, maxTokens) {
      var r, e' := NewRequest(e.nextId, prompt, maxTokens, ignoreEos), Submit(cfg, e, prompt, maxTokens, ignoreEos);
      assert Arrived(e, e', r);
      ArrivedHeld(e, e', r);
      assert MemoryOk(cfg, e') by { hide TreeOk, Held, Counts, FreeListOk, OwnershipOk, ViewsOk, NodesOk, OutputsOk,
        IdsOk, ShapesOk; }
      FreshRequest(cfg, m, e', prompt, maxTokens, ignoreEos);
      hide MemoryOk, ShapesOk, OwnershipOk, ViewsOk, OutputsOk, IdsOk, PrivateOk, AdoptedOk, ViewOk, Submit,
        WaitingOk, OutputOk, Queued;
      assert NewRequest(e.nextId, prompt, maxTokens, ignoreEos) == r;
      SameRecordOk(cfg, m, e', r, NewRequest(e'.nextId, prompt, maxTokens, ignoreEos));
      ArrivedOwnership(cfg, m, e, e', r);
      ArrivedQueues(cfg, m, e, e', r);
      NodesFrame(cfg, m, e, e');
    }
  }

  lemma SameRecordOk(cfg: Config, m: Model, e: State, r: Req, r0: Req)
    requires r == r0.(id := r.id) && WaitingOk(cfg, r0) && OutputOk(m, r0) && PrivateOk(e, r0) && AdoptedOk(cfg, e, r0)
    requires ViewOk(cfg, m, e, r0)
    ensures WaitingOk(cfg, r) && OutputOk(m, r) && PrivateOk(e, r) && AdoptedOk(cfg, e, r) && ViewOk(cfg, m, e, r)
  {
    hide Held;
  }
}
