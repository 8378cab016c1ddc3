/** The scheduler's primitive moves keep the invariant. */
module SafetyMoves {
  import opened Blocks
  import opened Paging
  import opened Decoding
  import opened Radix
  import opened RadixLaws
  import opened Requests
  import opened Scheduling
  import opened Safety

  // ---- frames

  /** Fewer references elsewhere cannot make a private block shared. */
  lemma PrivateFrame(e: State, e': State, r: Req)
    requires r in Queued(e) && r in Queued(e') && PrivateOk(e, r)
    requires forall i :: r.Adopted() <= i < |r.Table()| ==> Held(e')[r.Table()[i]] <= Held(e)[r.Table()[i]]
    ensures PrivateOk(e', r)
  {
    hide Held;
    forall i | r.Adopted() <= i < |r.Table()|
      ensures Held(e')[r.Table()[i]] == 1
    {
      HeldMember(e', r, i);
    }
  }

  /** A view depends on the contents of the table's blocks only. */
  lemma ViewFrame(cfg: Config, m: Model, e: State, e': State, r: Req)
    requires ViewOk(cfg, m, e, r) && Shaped(cfg.bs, StoreOf(e')) && |e'.mem| == |e.mem|
    requires forall i :: 0 <= i < |r.Table()| && r.Table()[i] < |e.mem| ==> e'.mem[r.Table()[i]] == e.mem[r.Table()[i]]
    ensures ViewOk(cfg, m, e', r)
  {
    hide Gather, Columns, Shaped;
    SameBlocksSameView(cfg.bs, StoreOf(e), StoreOf(e'), r.Table(), r.computed);
  }

  /** A request without KV has nothing to own or to read. */
  lemma BareRequest(cfg: Config, m: Model, e: State, r: Req)
    requires Shaped(cfg.bs, StoreOf(e)) && r.Table() == [] && r.computed == 0 && r.Adopted() == 0
    ensures PrivateOk(e, r) && AdoptedOk(cfg, e, r) && ViewOk(cfg, m, e, r)
  {
    assert r.AllTokens()[..0] == [];
  }

  lemma NodesFrame(cfg: Config, m: Model, e: State, e': State)
    requires NodesOk(cfg, m, e) && e'.mem == e.mem
    requires forall p :: p in e'.tree.nodes ==> p in e.tree.nodes && e'.tree.nodes[p].block == e.tree.nodes[p].block
    ensures NodesOk(cfg, m, e')
  {
    forall p | p in e'.tree.nodes
      ensures NodeOk(cfg, m, e', p)
    {
      assert NodeOk(cfg, m, e, p);
    }
  }

  // ---- evicting cached blocks

  lemma ReclaimMemory(cfg: Config, e: State, k: nat)
    requires MemoryOk(cfg, e)
    ensures MemoryOk(cfg, Reclaim(e, k))
    ensures |Reclaim(e, k).pool.free| == |e.pool.free| + |Victims(CacheOf(e), k)|
    ensures Reclaim(e, k).tree.nodes == e.tree.nodes - Set(Victims(CacheOf(e), k))
    ensures Set(Victims(CacheOf(e), k)) <= Unpinned(CacheOf(e))
  {
    hide TreeOk, FreeListOk, Evict, Victims;
    EvictRemovesVictims(CacheOf(e), k);
    EvictCounts(CacheOf(e), k, Tables(Queued(e)));
  }

  lemma FewerNodeBlocks(e: State, e': State)
    requires Queued(e') == Queued(e)
    requires forall p :: p in e'.tree.nodes ==> p in e.tree.nodes && e'.tree.nodes[p].block == e.tree.nodes[p].block
    ensures forall b :: Held(e')[b] <= Held(e)[b]
  {
    forall b
      ensures multiset(NodeBlocks(e'.tree.nodes))[b] <= multiset(NodeBlocks(e.tree.nodes))[b]
    {
      if b in NodeBlocks(e'.tree.nodes) {
        var p :| p in e'.tree.nodes && e'.tree.nodes[p].block == b;
        assert b in NodeBlocks(e.tree.nodes);
      }
    }
  }

  /** Eviction takes nothing a request owns or has adopted. */
  lemma ReclaimKeepsOwner(cfg: Config, e: State, k: nat, r: Req)
    requires cfg.bs > 0 && MemoryOk(cfg, e) && r in Queued(e)
    requires PrivateOk(e, r) && AdoptedOk(cfg, e, r)
    ensures PrivateOk(Reclaim(e, k), r) && AdoptedOk(cfg, Reclaim(e, k), r)
  {
    var e' := Reclaim(e, k);
    EvictKeepsBlocks(cfg, e, k);
    FewerNodeBlocks(e, e');
    hide *;
    PrivateFrame(e, e', r);
    AdoptedKept(cfg, e, e', r);
  }

  lemma AdoptedKept(cfg: Config, e: State, e': State, r: Req)
    requires cfg.bs > 0 && MemoryOk(cfg, e) && r in Queued(e) && AdoptedOk(cfg, e, r)
    requires forall p :: p in e'.tree.nodes ==> p in e.tree.nodes && e'.tree.nodes[p] == e.tree.nodes[p]
    requires forall p :: p in e.tree.nodes && Pinned(CacheOf(e), p) ==> p in e'.tree.nodes
    ensures AdoptedOk(cfg, e', r)
  {
    hide MemoryOk, Held, Pinned, Queued, Chunks;
    forall n | 0 < n <= r.Adopted() && n * cfg.bs <= |r.prompt| && n <= |r.Table()|
      ensures Chunks(cfg.bs, r.prompt, n) in e'.tree.nodes
      ensures e'.tree.nodes[Chunks(cfg.bs, r.prompt, n)].block == r.Table()[n - 1]
    {
      AdoptedIsPinned(cfg, e, r, n);
    }
  }

  lemma ReclaimOwnership(cfg: Config, e: State, k: nat)
    requires cfg.bs > 0 && MemoryOk(cfg, e) && OwnershipOk(cfg, e)
    ensures OwnershipOk(cfg, Reclaim(e, k))
  {
    EvictKeepsBlocks(cfg, e, k);
    hide MemoryOk, Reclaim, PrivateOk, AdoptedOk, Queued, Pinned;
    forall r | r in Queued(Reclaim(e, k))
      ensures PrivateOk(Reclaim(e, k), r) && AdoptedOk(cfg, Reclaim(e, k), r)
    {
      ReclaimKeepsOwner(cfg, e, k, r);
    }
  }

  lemma EvictKeepsBlocks(cfg: Config, e: State, k: nat)
    requires MemoryOk(cfg, e)
    ensures var e' := Reclaim(e, k);
      && Queued(e') == Queued(e) && e'.mem == e.mem
      && (forall p :: p in e'.tree.nodes ==> p in e.tree.nodes && e'.tree.nodes[p] == e.tree.nodes[p])
      && (forall p :: p in e.tree.nodes && Pinned(CacheOf(e), p) ==> p in e'.tree.nodes)
  {
    ReclaimMemory(cfg, e, k);
    hide MemoryOk, Evict, Victims;
  }

  /** What depends on the queues only. */
  lemma SameQueues(cfg: Config, m: Model, e: State, e': State)
    requires e'.running == e.running && e'.waiting == e.waiting && e'.done == e.done && e'.nextId == e.nextId
    ensures ShapesOk(cfg, e) ==> ShapesOk(cfg, e')
    ensures OutputsOk(m, e) ==> OutputsOk(m, e')
    ensures IdsOk(e) ==> IdsOk(e')
  {
    hide RunningOk, WaitingOk, OutputOk;
  }

  lemma ReclaimViews(cfg: Config, m: Model, e: State, k: nat)
    requires MemoryOk(cfg, e) && ViewsOk(cfg, m, e) && NodesOk(cfg, m, e)
    ensures ViewsOk(cfg, m, Reclaim(e, k)) && NodesOk(cfg, m, Reclaim(e, k))
  {
    var e' := Reclaim(e, k);
    ReclaimMemory(cfg, e, k);
    EvictKeepsBlocks(cfg, e, k);
    assert Shaped(cfg.bs, StoreOf(e'));
    hide MemoryOk, Reclaim, Shaped, ViewOk;
    NodesFrame(cfg, m, e, e');
    forall r | r in Queued(e')
      ensures ViewOk(cfg, m, e', r)
    {
      ViewFrame(cfg, m, e, e', r);
    }
  }

  lemma ReclaimSafe(cfg: Config, m: Model, e: State, k: nat)
    requires cfg.bs > 0 && Safe(cfg, m, e)
    ensures Safe(cfg, m, Reclaim(e, k))
    ensures |Reclaim(e, k).pool.free| >= |e.pool.free|
    ensures Reclaim(e, k).running == e.running && Reclaim(e, k).waiting == e.waiting
  {
    hide MemoryOk, ShapesOk, OwnershipOk, ViewsOk, NodesOk, OutputsOk, IdsOk, Evict;
    ReclaimMemory(cfg, e, k);
    ReclaimOwnership(cfg, e, k);
    ReclaimViews(cfg, m, e, k);
    SameQueues(cfg, m, e, Reclaim(e, k));
  }

  // ---- preemption

  lemma DistinctMoved(a: seq<Req>, x: Req, b: seq<Req>, x': Req, c: seq<Req>)
    requires Distinct(a + [x] + b + c) && x'.id == x.id
    ensures Distinct(a + b + [x'] + c)
  {
    var q, q' := a + [x] + b + c, a + b + [x'] + c;
    forall i, j | 0 <= i < j < |q'|
      ensures q'[i].id != q'[j].id
    {
      var i0 := if i < |a| then i else if i < |a| + |b| then i + 1 else if i == |a| + |b| then |a| else i;
      var j0 := if j < |a| then j else if j < |a| + |b| then j + 1 else if j == |a| + |b| then |a| else j;
      assert q'[i].id == q[i0].id && q'[j].id == q[j0].id && i0 != j0;
    }
  }

  lemma PreemptQueue(e: State, i: nat)
    requires i < |e.running|
    ensures var r, e' := e.running[i], Preempt(e, i);
      && Queued(e) == e.running[..i] + [r] + e.running[i + 1..] + e.waiting
      && Queued(e') == e.running[..i] + e.running[i + 1..] + [r.Reset()] + e.waiting
  {
    var r := e.running[i];
    assert e.running == e.running[..i] + [r] + e.running[i + 1..];
  }

  lemma PreemptMembers(e: State, i: nat)
    requires i < |e.running|
    ensures var r, e' := e.running[i], Preempt(e, i);
      && (forall q :: q in Queued(e') ==> q == r.Reset() || q in Queued(e))
      && (forall q :: q in e'.running ==> q in e.running)
      && (forall q :: q in e'.waiting ==> q == r.Reset() || q in e.waiting)
  {
  }

  lemma PreemptTables(e: State, i: nat)
    requires i < |e.running|
    ensures Tables(Queued(e)) == multiset(e.running[i].Table()) + Tables(Queued(Preempt(e, i)))
  {
    hide Tables;
    var r := e.running[i];
    TablesConcat(e.running, e.waiting);
    TablesSplit(e.running, i);
    TablesConcat(Without(e.running, i), [r.Reset()] + e.waiting);
    TablesConcat([r.Reset()], e.waiting);
    TablesOne(r.Reset());
  }

  lemma HeldLess(a: multiset<nat>, b: multiset<nat>, n: multiset<nat>, t: multiset<nat>)
    requires a == t + b
    ensures a + n == t + (b + n)
    ensures forall x :: (b + n)[x] <= (a + n)[x]
  {
  }

  lemma PreemptMemory(cfg: Config, e: State, i: nat)
    requires MemoryOk(cfg, e) && i < |e.running|
    ensures MemoryOk(cfg, Preempt(e, i))
    ensures |Preempt(e, i).pool.free| >= |e.pool.free|
    ensures forall b :: Held(Preempt(e, i))[b] <= Held(e)[b]
  {
    hide TreeOk, NodeBlocks, Tables;
    var r, e' := e.running[i], Preempt(e, i);
    var nodes := multiset(NodeBlocks(e.tree.nodes));
    PreemptTables(e, i);
    HeldLess(Tables(Queued(e)), Tables(Queued(e')), nodes, multiset(r.Table()));
    ReleaseCounts(e.pool, r.Table(), Held(e), Held(e'));
  }

  lemma PreemptOwnership(cfg: Config, m: Model, e: State, i: nat)
    requires cfg.bs > 0 && MemoryOk(cfg, e) && OwnershipOk(cfg, e) && ViewsOk(cfg, m, e) && i < |e.running|
    ensures OwnershipOk(cfg, Preempt(e, i)) && ViewsOk(cfg, m, Preempt(e, i))
  {
    var e' := Preempt(e, i);
    PreemptMembers(e, i);
    PreemptMemory(cfg, e, i);
    assert Shaped(cfg.bs, StoreOf(e'));
    hide MemoryOk, Shaped, Held, ViewOk, PrivateOk;
    forall r | r in Queued(e')
      ensures PrivateOk(e', r) && AdoptedOk(cfg, e', r) && ViewOk(cfg, m, e', r)
    {
      if r in Queued(e) {
        PrivateFrame(e, e', r);
        ViewFrame(cfg, m, e, e', r);
      } else {
        BareRequest(cfg, m, e', r);
      }
    }
  }

  lemma ResetOk(cfg: Config, m: Model, r: Req)
    requires RunningOk(cfg, r) && OutputOk(m, r) && !r.IsFinished()
    ensures WaitingOk(cfg, r.Reset()) && OutputOk(m, r.Reset())
  {
  }

  lemma PreemptShapes(cfg: Config, m: Model, e: State, i: nat)
    requires ShapesOk(cfg, e) && OutputsOk(m, e) && i < |e.running| && !e.running[i].IsFinished()
    ensures ShapesOk(cfg, Preempt(e, i)) && OutputsOk(m, Preempt(e, i))
  {
    hide RunningOk, WaitingOk, OutputOk;
    var r := e.running[i];
    PreemptMembers(e, i);
    InQueue(e, r);
    ResetOk(cfg, m, r);
    assert Preempt(e, i).done == e.done;
    hide Queued, Preempt;
  }

  lemma PreemptIds(e: State, i: nat)
    requires IdsOk(e) && i < |e.running|
    ensures IdsOk(Preempt(e, i))
  {
    var r := e.running[i];
    PreemptQueue(e, i);
    DistinctMoved(e.running[..i], r, e.running[i + 1..], r.Reset(), e.waiting);
    hide Distinct;
    assert r in Queued(e);
  }

  lemma PreemptSafe(cfg: Config, m: Model, e: State, i: nat)
    requires cfg.bs > 0 && Safe(cfg, m, e) && i < |e.running| && !e.running[i].IsFinished()
    ensures Safe(cfg, m, Preempt(e, i))
    ensures |Preempt(e, i).pool.free| >= |e.pool.free|
  {
    hide MemoryOk, ShapesOk, OwnershipOk, ViewsOk, NodesOk, OutputsOk, IdsOk;
    PreemptMemory(cfg, e, i);
    PreemptOwnership(cfg, m, e, i);
    PreemptShapes(cfg, m, e, i);
    PreemptIds(e, i);
    NodesFrame(cfg, m, e, Preempt(e, i));
  }
}
