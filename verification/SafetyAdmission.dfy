/** Admission keeps the invariant: adopting a cached prefix is as good as computing it. */
module SafetyAdmission {
  import opened Numbers
  import opened Blocks
  import opened Paging
  import opened Decoding
  import opened Options
  import opened Radix
  import opened RadixLaws
  import opened Requests
  import opened Scheduling
  import opened Safety
  import opened SafetyMoves

  // ---- the head of the waiting queue gets a new record

  /** e' is e with the record of the waiting head replaced, in the same queue position. */
  ghost predicate HeadReplaced(e: State, e': State, r': Req) {
    && e.waiting != []
    && Queued(e') == e.running + [r'] + e.waiting[1..]
    && r'.id == e.waiting[0].id
    && e'.done == e.done && e'.nextId == e.nextId
  }

  lemma HeadMembers(e: State, e': State, r': Req)
    requires HeadReplaced(e, e', r')
    ensures r' in Queued(e') && e.waiting[0] in Queued(e)
    ensures forall q :: q in Queued(e') ==> q == r' || q in Queued(e)
    ensures forall q :: q in Queued(e) ==> q == e.waiting[0] || q in Queued(e')
  {
    assert e.waiting == [e.waiting[0]] + e.waiting[1..];
    assert Queued(e')[|e.running|] == r';
  }

  lemma HeadTables(e: State, e': State, r': Req)
    requires HeadReplaced(e, e', r')
    ensures Tables(Queued(e')) + multiset(e.waiting[0].Table()) == Tables(Queued(e)) + multiset(r'.Table())
  {
    hide Tables;
    var r, rest := e.waiting[0], e.waiting[1..];
    assert Queued(e) == e.running + [r] + rest by {
      assert e.waiting == [r] + rest;
    }
    TablesConcat(e.running + [r], rest);
    TablesConcat(e.running, [r]);
    TablesOne(r);
    TablesConcat(e.running + [r'], rest);
    TablesConcat(e.running, [r']);
    TablesOne(r');
  }

  lemma HeadIds(e: State, e': State, r': Req)
    requires HeadReplaced(e, e', r') && IdsOk(e)
    ensures IdsOk(e')
  {
    var q, q' := Queued(e), Queued(e');
    assert e.waiting == [e.waiting[0]] + e.waiting[1..];
    assert |q'| == |q| && forall i :: 0 <= i < |q| ==> q'[i].id == q[i].id;
    HeadMembers(e, e', r');
  }

  lemma HeadOutputs(m: Model, e: State, e': State, r': Req)
    requires HeadReplaced(e, e', r') && OutputsOk(m, e) && OutputOk(m, r')
    ensures OutputsOk(m, e')
  {
    HeadMembers(e, e', r');
    hide OutputOk, Queued;
  }

  // ---- a fresh sequence view

  lemma {:induction false} SpellChunks(bs: nat, toks: seq<Token>, n: nat)
    requires n * bs <= |toks|
    ensures Spell(Chunks(bs, toks, n)) == toks[..n * bs]
    decreases n
  {
    if n > 0 {
      MulMono(n - 1, n, bs);
      SpellChunks(bs, toks, n - 1);
      var path := Chunks(bs, toks, n);
      assert path[..n - 1] == Chunks(bs, toks, n - 1);
      assert toks[..n * bs] == toks[..(n - 1) * bs] + toks[(n - 1) * bs..n * bs];
    }
  }

  /** Gathering one more whole block appends its contents. */
  lemma GatherBlock(bs: nat, st: Store, table: seq<nat>, n: nat)
    requires Shaped(bs, st) && InRange(st, table) && n < |table|
    ensures n * bs <= (n + 1) * bs <= |table| * bs
    ensures Gather(bs, st, table, (n + 1) * bs) == Gather(bs, st, table, n * bs) + st.mem[table[n]]
  {
    MulMono(n + 1, |table|, bs);
    var whole, front := Gather(bs, st, table, (n + 1) * bs), Gather(bs, st, table, n * bs);
    forall p | 0 <= p < (n + 1) * bs
      ensures whole[p] == (front + st.mem[table[n]])[p]
    {
      PageBound(p, n + 1, bs);
      if n * bs <= p {
        PositionUnique(p, n, p - n * bs, bs);
      }
    }
  }

  /** Blocks of trie nodes along toks hold the columns of toks. */
  /** The first n blocks of a table are the trie's, along the tokens. */
  ghost predicate CachedAlong(cfg: Config, e: State, toks: seq<Token>, table: seq<nat>, n: nat) {
    n <= |table| && forall k :: 0 < k <= n && k * cfg.bs <= |toks| ==>
      Chunks(cfg.bs, toks, k) in e.tree.nodes && e.tree.nodes[Chunks(cfg.bs, toks, k)].block == table[k - 1]
  }

  lemma {:induction false} AdoptedView(cfg: Config, m: Model, e: State, toks: seq<Token>, table: seq<nat>, n: nat)
    requires Shaped(cfg.bs, StoreOf(e)) && InRange(StoreOf(e), table)
    requires NodesOk(cfg, m, e) && n * cfg.bs <= |toks| && CachedAlong(cfg, e, toks, table, n)
    ensures n * cfg.bs <= |table| * cfg.bs
    ensures Gather(cfg.bs, StoreOf(e), table, n * cfg.bs) == Columns(m, toks[..n * cfg.bs])
    decreases n
  {
    var bs := cfg.bs;
    MulMono(n, |table|, bs);
    if n == 0 {
      assert toks[..0] == [];
    } else {
      hide Gather, Columns, Shaped, NodeOk, Chunks;
      MulMono(n - 1, n, bs);
      AdoptedView(cfg, m, e, toks, table, n - 1);
      GatherBlock(bs, StoreOf(e), table, n - 1);
      BlockColumns(cfg, m, e, toks, n);
    }
  }

  /** The n-th cached block holds the columns of the n-th chunk. */
  lemma BlockColumns(cfg: Config, m: Model, e: State, toks: seq<Token>, n: nat)
    requires cfg.bs > 0 && 0 < n && n * cfg.bs <= |toks|
    requires Chunks(cfg.bs, toks, n) in e.tree.nodes && NodeOk(cfg, m, e, Chunks(cfg.bs, toks, n))
    ensures (n - 1) * cfg.bs <= n * cfg.bs
    ensures Columns(m, toks[..n * cfg.bs])
      == Columns(m, toks[..(n - 1) * cfg.bs]) + e.mem[e.tree.nodes[Chunks(cfg.bs, toks, n)].block]
  {
    var bs := cfg.bs;
    MulMono(n - 1, n, bs);
    SpellChunks(bs, toks, n);
    var all := toks[..n * bs];
    ColumnsPrefix(m, all, (n - 1) * bs);
    hide Chunks, Spell;
    assert all[..(n - 1) * bs] == toks[..(n - 1) * bs];
    var cols := Columns(m, all);
    assert cols == cols[..(n - 1) * bs] + cols[(n - 1) * bs..];
  }

  // ---- attaching a view to the head of the queue

  function AdoptedBlocks(cfg: Config, e: State): seq<nat>
    requires cfg.bs > 0 && e.waiting != []
  {
    if cfg.caching then MatchBlocks(cfg.bs, e.tree, e.waiting[0].prompt) else []
  }

  function AdoptedHead(cfg: Config, e: State): Req
    requires cfg.bs > 0 && e.waiting != []
  {
    var blocks := AdoptedBlocks(cfg, e);
    var n := |blocks| * cfg.bs;
    e.waiting[0].(kv := Some(SeqKV(blocks, n, |blocks|)), computed := n)
  }

  /** In safe states a miss and a hit are one case: adopt the blocks matched, maybe none. */
  lemma AttachIs(cfg: Config, e: State)
    requires cfg.bs > 0 && e.waiting != [] && WaitingOk(cfg, e.waiting[0]) && e.waiting[0].kv.None?
    ensures var e', r' := Attach(cfg, e), AdoptedHead(cfg, e);
      && e'.waiting == [r'] + e.waiting[1..] && e'.running == e.running
      && e'.mem == e.mem && e'.done == e.done && e'.nextId == e.nextId
      && e'.pool == IncrefMany(e.pool, AdoptedBlocks(cfg, e))
      && e'.tree == (if cfg.caching then MatchTree(cfg.bs, e.tree, e.waiting[0].prompt) else e.tree)
      && HeadReplaced(e, e', r')
  {
    hide MatchTree, MatchBlocks;
  }

  lemma AdoptedFacts(cfg: Config, e: State, n: nat)
    requires cfg.bs > 0 && e.waiting != [] && e.waiting[0].prompt != [] && PrefixClosed(e.tree.nodes)
    requires 0 < n <= |AdoptedBlocks(cfg, e)|
    ensures var prompt := e.waiting[0].prompt;
      && n * cfg.bs < |prompt| && |AdoptedBlocks(cfg, e)| * cfg.bs < |prompt|
      && Chunks(cfg.bs, prompt, n) in e.tree.nodes
      && e.tree.nodes[Chunks(cfg.bs, prompt, n)].block == AdoptedBlocks(cfg, e)[n - 1]
  {
    var prompt := e.waiting[0].prompt;
    MatchLeavesAToken(cfg.bs, e.tree, prompt);
    MulMono(n, |AdoptedBlocks(cfg, e)|, cfg.bs);
    MatchIsLongest(cfg.bs, e.tree, prompt, n);
  }

  lemma AdoptedInTrie(cfg: Config, e: State)
    requires cfg.bs > 0 && e.waiting != [] && e.waiting[0].prompt != [] && PrefixClosed(e.tree.nodes)
    ensures forall b :: b in AdoptedBlocks(cfg, e) ==> b in NodeBlocks(e.tree.nodes)
  {
    hide AdoptedBlocks, PrefixClosed;
    var blocks := AdoptedBlocks(cfg, e);
    forall i | 0 <= i < |blocks|
      ensures blocks[i] in NodeBlocks(e.tree.nodes)
    {
      AdoptedFacts(cfg, e, i + 1);
    }
  }

  lemma StampedTree(cfg: Config, e: State)
    requires cfg.bs > 0 && e.waiting != [] && TreeOk(e.tree)
    ensures var t := Attach(cfg, e).tree;
      && TreeOk(t) && NodeBlocks(t.nodes) == NodeBlocks(e.tree.nodes)
      && t.nodes.Keys == e.tree.nodes.Keys
      && (forall p :: p in t.nodes ==> t.nodes[p].block == e.tree.nodes[p].block)
  {
    MatchKeepsTree(cfg.bs, e.tree, e.waiting[0].prompt);
    hide TreeOk, NodeBlocks, MatchBlocks, Usable, Follow;
  }

  lemma AttachHeld(cfg: Config, e: State)
    requires cfg.bs > 0 && TreeOk(e.tree) && e.waiting != [] && WaitingOk(cfg, e.waiting[0]) && e.waiting[0].kv.None?
    ensures Held(Attach(cfg, e)) == Held(e) + multiset(AdoptedBlocks(cfg, e))
  {
    hide TreeOk, NodeBlocks, Tables, AdoptedBlocks;
    var e', blocks := Attach(cfg, e), AdoptedBlocks(cfg, e);
    AttachIs(cfg, e);
    StampedTree(cfg, e);
    HeadTables(e, e', AdoptedHead(cfg, e));
    hide Attach, Queued;
    SwapTables(Tables(Queued(e)), Tables(Queued(e')), multiset(NodeBlocks(e.tree.nodes)), multiset(blocks));
  }

  lemma SwapTables(a: multiset<nat>, a': multiset<nat>, n: multiset<nat>, b: multiset<nat>)
    requires a' + multiset{} == a + b
    ensures a' + n == a + n + b
  {
    assert a' + multiset{} == a';
  }

  lemma AttachMemory(cfg: Config, e: State)
    requires cfg.bs > 0 && MemoryOk(cfg, e) && e.waiting != [] && WaitingOk(cfg, e.waiting[0]) && e.waiting[0].kv.None?
    ensures MemoryOk(cfg, Attach(cfg, e))
    ensures Attach(cfg, e).pool.free == e.pool.free
  {
    var e', blocks := Attach(cfg, e), AdoptedBlocks(cfg, e);
    AdoptedInTrie(cfg, e);
    hide TreeOk, NodeBlocks, Tables, AdoptedBlocks;
    AttachIs(cfg, e);
    StampedTree(cfg, e);
    AttachHeld(cfg, e);
    hide Attach, Queued;
    IncrefManyCounts(e.pool, blocks, Held(e));
    IncrefManySize(e.pool, blocks);
  }

  lemma AttachWaiting(cfg: Config, e: State)
    requires cfg.bs > 0 && TreeOk(e.tree) && e.waiting != [] && WaitingOk(cfg, e.waiting[0]) && e.waiting[0].kv.None?
    ensures WaitingOk(cfg, AdoptedHead(cfg, e))
    ensures |AdoptedBlocks(cfg, e)| * cfg.bs < |e.waiting[0].prompt|
  {
    hide AdoptedBlocks;
    var blocks := AdoptedBlocks(cfg, e);
    if blocks != [] {
      AdoptedFacts(cfg, e, |blocks|);
      MulMono(|blocks| - 1, |blocks|, cfg.bs);
      assert (|blocks| - 1) * cfg.bs == |blocks| * cfg.bs - cfg.bs;
    }
    if !cfg.caching {
      NoCacheNoBlocks(cfg, e);
    }
  }

  lemma NoCacheNoBlocks(cfg: Config, e: State)
    requires cfg.bs > 0 && e.waiting != [] && !cfg.caching
    ensures AdoptedBlocks(cfg, e) == []
  {
  }

  lemma AttachAdopted(cfg: Config, e: State)
    requires cfg.bs > 0 && TreeOk(e.tree) && e.waiting != [] && WaitingOk(cfg, e.waiting[0]) && e.waiting[0].kv.None?
    ensures var e', r' := Attach(cfg, e), AdoptedHead(cfg, e);
      PrivateOk(e', r') && AdoptedOk(cfg, e', r')
  {
    hide AdoptedBlocks, Held, NodeBlocks;
    var e', r', blocks := Attach(cfg, e), AdoptedHead(cfg, e), AdoptedBlocks(cfg, e);
    AttachIs(cfg, e);
    StampedTree(cfg, e);
    hide Attach;
    forall n | 0 < n <= |blocks| && n * cfg.bs <= |r'.prompt|
      ensures Chunks(cfg.bs, r'.prompt, n) in e'.tree.nodes
      ensures e'.tree.nodes[Chunks(cfg.bs, r'.prompt, n)].block == blocks[n - 1]
    {
      AdoptedFacts(cfg, e, n);
    }
  }

  lemma AttachView(cfg: Config, m: Model, e: State)
    requires cfg.bs > 0 && MemoryOk(cfg, e) && NodesOk(cfg, m, e)
    requires e.waiting != [] && WaitingOk(cfg, e.waiting[0]) && e.waiting[0].kv.None?
    ensures ViewOk(cfg, m, Attach(cfg, e), AdoptedHead(cfg, e))
  {
    hide AdoptedBlocks, Held, NodeBlocks, TreeOk, FreeListOk, Counts, WaitingOk, NodeOk;
    var e', r', blocks := Attach(cfg, e), AdoptedHead(cfg, e), AdoptedBlocks(cfg, e);
    AttachIs(cfg, e);
    StampedTree(cfg, e);
    AttachMemory(cfg, e);
    AttachWaiting(cfg, e);
    AttachAdopted(cfg, e);
    HeadMembers(e, e', r');
    hide Attach;
    TablesInRange(cfg, e', r');
    NodesFrame(cfg, m, e, e');
    AdoptedView(cfg, m, e', r'.prompt, blocks, |blocks|);
    assert r'.AllTokens()[..r'.computed] == r'.prompt[..r'.computed];
  }

  lemma AttachOthers(cfg: Config, m: Model, e: State, r: Req)
    requires cfg.bs > 0 && MemoryOk(cfg, e)
    requires e.waiting != [] && WaitingOk(cfg, e.waiting[0]) && e.waiting[0].kv.None?
    requires r in Queued(e) && r in Queued(Attach(cfg, e))
    requires PrivateOk(e, r) && AdoptedOk(cfg, e, r) && ViewOk(cfg, m, e, r)
    ensures var e' := Attach(cfg, e);
      PrivateOk(e', r) && AdoptedOk(cfg, e', r) && ViewOk(cfg, m, e', r)
  {
    var e', blocks := Attach(cfg, e), AdoptedBlocks(cfg, e);
    AdoptedInTrie(cfg, e);
    hide AdoptedBlocks, Held, NodeBlocks, TreeOk, FreeListOk, Counts, WaitingOk, ViewOk, Shaped;
    AttachIs(cfg, e);
    StampedTree(cfg, e);
    AttachHeld(cfg, e);
    AttachMemory(cfg, e);
    hide Attach, Queued;
    forall i | r.Adopted() <= i < |r.Table()|
      ensures Held(e')[r.Table()[i]] <= Held(e)[r.Table()[i]]
    {
      HeldMember(e, r, i);
      assert r.Table()[i] !in blocks;
    }
    PrivateFrame(e, e', r);
    ViewFrame(cfg, m, e, e', r);
  }

  lemma AttachSafe(cfg: Config, m: Model, e: State)
    requires cfg.bs > 0 && Safe(cfg, m, e) && e.waiting != []
    ensures Safe(cfg, m, Attach(cfg, e))
    ensures Attach(cfg, e).pool.free == e.pool.free
    ensures Attach(cfg, e).waiting != [] && Attach(cfg, e).waiting[0].kv.Some?
  {
    var e' := Attach(cfg, e);
    if e.waiting[0].kv.None? {
      var r' := AdoptedHead(cfg, e);
      AttachMemory(cfg, e);
      AttachQueues(cfg, m, e);
      AttachOwnership(cfg, m, e);
      AttachIs(cfg, e);
      StampedTree(cfg, e);
      NodesFrame(cfg, m, e, e');
      hide Attach, AdoptedHead, MemoryOk, ShapesOk, OwnershipOk, ViewsOk, NodesOk, OutputsOk, IdsOk;
    }
  }

  lemma AttachQueues(cfg: Config, m: Model, e: State)
    requires cfg.bs > 0 && TreeOk(e.tree) && ShapesOk(cfg, e) && OutputsOk(m, e) && IdsOk(e)
    requires e.waiting != [] && e.waiting[0].kv.None?
    ensures var e' := Attach(cfg, e);
      ShapesOk(cfg, e') && OutputsOk(m, e') && IdsOk(e')
  {
    var e', r' := Attach(cfg, e), AdoptedHead(cfg, e);
    AttachIs(cfg, e);
    AttachWaiting(cfg, e);
    HeadIds(e, e', r');
    assert OutputOk(m, r') by { assert OutputOk(m, e.waiting[0]) by { InQueue(e, e.waiting[0]); } }
    HeadOutputs(m, e, e', r');
    hide Attach, AdoptedHead, RunningOk, WaitingOk, OutputsOk, IdsOk;
  }

  lemma AttachOwnership(cfg: Config, m: Model, e: State)
    requires cfg.bs > 0 && MemoryOk(cfg, e) && OwnershipOk(cfg, e) && ViewsOk(cfg, m, e) && NodesOk(cfg, m, e)
    requires e.waiting != [] && WaitingOk(cfg, e.waiting[0]) && e.waiting[0].kv.None?
    ensures var e' := Attach(cfg, e);
      OwnershipOk(cfg, e') && ViewsOk(cfg, m, e')
  {
    var e', r' := Attach(cfg, e), AdoptedHead(cfg, e);
    AttachAdopted(cfg, e);
    AttachView(cfg, m, e);
    AttachIs(cfg, e);
    HeadMembers(e, e', r');
    hide Attach, AdoptedHead, MemoryOk, NodesOk, WaitingOk, PrivateOk, AdoptedOk, ViewOk, Queued;
    forall r | r in Queued(e')
      ensures PrivateOk(e', r) && AdoptedOk(cfg, e', r) && ViewOk(cfg, m, e', r)
    {
      if r != r' {
        AttachOthers(cfg, m, e, r);
      }
    }
  }

  // ---- moving the head between the queues

  /** Same tokens, same blocks, same position. */
  ghost predicate SameData(r: Req, r': Req) {
    && r'.id == r.id && r'.prompt == r.prompt && r'.output == r.output
    && r'.maxTokens == r.maxTokens && r'.ignoreEos == r.ignoreEos
    && r'.Table() == r.Table() && r'.Adopted() == r.Adopted() && r'.computed == r.computed
  }

  ghost predicate HeadMoved(e: State, e': State, r': Req) {
    && HeadReplaced(e, e', r') && SameData(e.waiting[0], r')
    && e'.pool == e.pool && e'.mem == e.mem && e'.tree == e.tree
  }

  lemma MovedHeld(e: State, e': State, r': Req)
    requires HeadMoved(e, e', r')
    ensures Held(e') == Held(e)
  {
    hide Tables, Queued, NodeBlocks;
    HeadTables(e, e', r');
    CancelTables(Tables(Queued(e)), Tables(Queued(e')), multiset(r'.Table()));
  }

  lemma CancelTables(a: multiset<nat>, b: multiset<nat>, t: multiset<nat>)
    requires b + t == a + t
    ensures a == b
  {
    forall x
      ensures a[x] == b[x]
    {
      assert (a + t)[x] == (b + t)[x];
    }
  }

  lemma MovedOwnership(cfg: Config, m: Model, e: State, e': State, r': Req)
    requires HeadMoved(e, e', r') && OwnershipOk(cfg, e) && ViewsOk(cfg, m, e)
    ensures OwnershipOk(cfg, e') && ViewsOk(cfg, m, e')
  {
    MovedHeld(e, e', r');
    HeadMembers(e, e', r');
    hide Held, Queued;
    forall r | r in Queued(e')
      ensures PrivateOk(e', r) && AdoptedOk(cfg, e', r) && ViewOk(cfg, m, e', r)
    {
      var r0 := if r == r' then e.waiting[0] else r;
      assert PrivateOk(e, r0) && AdoptedOk(cfg, e, r0) && ViewOk(cfg, m, e, r0);
      SameOwner(cfg, m, e, e', r0, r);
    }
  }

  lemma SameOwner(cfg: Config, m: Model, e: State, e': State, r: Req, r': Req)
    requires SameData(r, r') && Held(e') == Held(e) && e'.pool == e.pool && e'.mem == e.mem && e'.tree == e.tree
    requires PrivateOk(e, r) && AdoptedOk(cfg, e, r) && ViewOk(cfg, m, e, r)
    ensures PrivateOk(e', r') && AdoptedOk(cfg, e', r') && ViewOk(cfg, m, e', r')
  {
    hide Held, Gather;
  }

  lemma MovedSafe(cfg: Config, m: Model, e: State, e': State, r': Req)
    requires Safe(cfg, m, e) && HeadMoved(e, e', r') && ShapesOk(cfg, e') && OutputOk(m, r')
    ensures Safe(cfg, m, e')
  {
    MovedHeld(e, e', r');
    assert MemoryOk(cfg, e') by { hide Held, TreeOk, FreeListOk, Counts, Shaped; }
    MovedOwnership(cfg, m, e, e', r');
    HeadIds(e, e', r');
    HeadOutputs(m, e, e', r');
    NodesFrame(cfg, m, e, e');
    hide MemoryOk, ShapesOk, OwnershipOk, ViewsOk, NodesOk, OutputsOk, IdsOk, HeadMoved;
  }

  lemma AdmitShapes(cfg: Config, e: State)
    requires ShapesOk(cfg, e) && e.waiting != [] && e.waiting[0].kv.Some?
    ensures ShapesOk(cfg, Admit(e))
    ensures RunningOk(cfg, e.waiting[0].(status := Prefill))
  {
    var r := e.waiting[0];
    assert r in e.waiting;
    var r' := r.(status := Prefill);
    assert WaitingOk(cfg, r);
    assert RunningOk(cfg, r');
    hide RunningOk, WaitingOk;
    forall q | q in Admit(e).running
      ensures RunningOk(cfg, q)
    {
      assert q == r' || q in e.running;
    }
    assert forall q :: q in Admit(e).waiting ==> q in e.waiting;
  }

  lemma AdmittedOutput(cfg: Config, m: Model, e: State)
    requires ShapesOk(cfg, e) && OutputsOk(m, e) && e.waiting != []
    ensures OutputOk(m, e.waiting[0]) && WaitingOk(cfg, e.waiting[0])
    ensures OutputOk(m, e.waiting[0].(status := Prefill))
  {
    hide RunningOk;
    InQueue(e, e.waiting[0]);
  }

  lemma AdmitMoves(e: State)
    requires e.waiting != []
    ensures HeadMoved(e, Admit(e), e.waiting[0].(status := Prefill))
  {
  }

  lemma AdmitSafe(cfg: Config, m: Model, e: State)
    requires Safe(cfg, m, e) && e.waiting != [] && e.waiting[0].kv.Some?
    ensures Safe(cfg, m, Admit(e))
  {
    hide MemoryOk, ShapesOk, OwnershipOk, ViewsOk, NodesOk, OutputsOk, OutputOk, IdsOk, HeadMoved;
    AdmitShapes(cfg, e);
    AdmittedOutput(cfg, m, e);
    AdmitMoves(e);
    MovedSafe(cfg, m, e, Admit(e), e.waiting[0].(status := Prefill));
  }

  lemma NoPages(cfg: Config, r: Req)
    requires cfg.bs > 0 && WaitingOk(cfg, r) && (!cfg.caching || r.computed == 0)
    ensures r.Table() == [] && r.Adopted() == 0 && r.computed == 0
  {
    if |r.Table()| > 0 {
      MulMono(0, |r.Table()| - 1, cfg.bs);
    }
  }

  function RolledBack(r: Req): Req { r.(kv := None, status := Waiting) }

  lemma RollBackMoves(cfg: Config, e: State)
    requires cfg.bs > 0 && e.waiting != [] && WaitingOk(cfg, e.waiting[0]) && e.waiting[0].computed == 0
    ensures HeadMoved(e, RollBack(Admit(e)), RolledBack(e.waiting[0]))
    ensures RollBack(Admit(e)).running == e.running
    ensures RollBack(Admit(e)).waiting == [RolledBack(e.waiting[0])] + e.waiting[1..]
  {
    NoPages(cfg, e.waiting[0]);
  }

  lemma RollBackShapes(cfg: Config, e: State)
    requires cfg.bs > 0 && ShapesOk(cfg, e) && e.waiting != [] && e.waiting[0].computed == 0
    ensures ShapesOk(cfg, RollBack(Admit(e)))
  {
    var r, e' := e.waiting[0], RollBack(Admit(e));
    assert WaitingOk(cfg, r);
    NoPages(cfg, r);
    RollBackMoves(cfg, e);
    assert WaitingOk(cfg, RolledBack(r));
    hide RunningOk, WaitingOk, HeadMoved, RollBack;
    forall q | q in e'.waiting
      ensures WaitingOk(cfg, q)
    {
      assert q == RolledBack(r) || q in e.waiting[1..];
    }
  }

  lemma RollBackSafe(cfg: Config, m: Model, e: State)
    requires cfg.bs > 0 && Safe(cfg, m, e) && e.waiting != [] && e.waiting[0].computed == 0
    ensures Safe(cfg, m, RollBack(Admit(e)))
    ensures RollBack(Admit(e)).pool == e.pool
  {
    AdmittedOutput(cfg, m, e);
    assert OutputOk(m, RolledBack(e.waiting[0]));
    RollBackMoves(cfg, e);
    assert RollBack(Admit(e)).pool == e.pool;
    hide MemoryOk, ShapesOk, OwnershipOk, ViewsOk, NodesOk, OutputsOk, OutputOk, IdsOk, HeadMoved, RollBack, WaitingOk;
    RollBackShapes(cfg, e);
    MovedSafe(cfg, m, e, RollBack(Admit(e)), RolledBack(e.waiting[0]));
  }
}
