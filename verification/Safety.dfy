/** The engine invariant. */
module Safety {
  import opened Numbers
  import opened Blocks
  import opened Paging
  import opened Decoding
  import opened Radix
  import opened RadixLaws
  import opened Requests
  import opened Scheduling

  // ---- references held by block tables

  function Tables(q: seq<Req>): multiset<nat> {
    if q == [] then multiset{} else multiset(q[0].Table()) + Tables(q[1..])
  }

  lemma {:induction false} TablesConcat(a: seq<Req>, b: seq<Req>)
    ensures Tables(a + b) == Tables(a) + Tables(b)
    decreases |a|
  {
    if a == [] {
      assert a + b == b;
    } else {
      assert (a + b)[1..] == a[1..] + b;
      TablesConcat(a[1..], b);
    }
  }

  lemma TablesOne(r: Req)
    ensures Tables([r]) == multiset(r.Table())
  {
    assert [r][1..] == [];
  }

  /** Tables of a queue around one of its members. */
  lemma TablesSplit(q: seq<Req>, i: nat)
    requires i < |q|
    ensures Tables(q) == multiset(q[i].Table()) + Tables(Without(q, i))
  {
    hide Tables;
    SplitAt(q, i);
    TablesConcat(q[..i], [q[i]] + q[i + 1..]);
    TablesConcat([q[i]], q[i + 1..]);
    TablesOne(q[i]);
    TablesConcat(q[..i], q[i + 1..]);
    MiddleFirst(Tables(q[..i]), multiset(q[i].Table()), Tables(q[i + 1..]));
  }

  lemma SplitAt(q: seq<Req>, i: nat)
    requires i < |q|
    ensures q == q[..i] + ([q[i]] + q[i + 1..])
  {
  }

  lemma MiddleFirst(a: multiset<nat>, b: multiset<nat>, c: multiset<nat>)
    ensures a + (b + c) == b + (a + c)
  {
  }

  lemma TablesUpdate(q: seq<Req>, i: nat, r: Req)
    requires i < |q|
    ensures Tables(q[i := r]) == multiset(r.Table()) + Tables(Without(q, i))
  {
    TablesSplit(q[i := r], i);
    assert Without(q[i := r], i) == Without(q, i);
  }

  lemma TablesMember(q: seq<Req>, r: Req)
    requires r in q
    ensures multiset(r.Table()) <= Tables(q)
  {
    var i :| 0 <= i < |q| && q[i] == r;
    TablesSplit(q, i);
  }

  /** A block counted by a queue is in some member's table. */
  lemma {:induction false} TablesWitness(q: seq<Req>, b: nat) returns (r: Req)
    requires b in Tables(q)
    ensures r in q && b in r.Table()
    decreases |q|
  {
    if b in multiset(q[0].Table()) {
      r := q[0];
    } else {
      r := TablesWitness(q[1..], b);
    }
  }

  /** Every reference to a block: block tables of queued requests, then trie nodes. */
  ghost function Held(e: State): multiset<nat> {
    Tables(Queued(e)) + multiset(NodeBlocks(e.tree.nodes))
  }

  // ---- the parts of the invariant

  ghost predicate Allowed(cfg: Config) {
    cfg.bs > 0 && (cfg.chunked || !cfg.caching)
  }

  lemma AllowedSize(cfg: Config)
    requires Allowed(cfg)
    ensures cfg.bs > 0
  {
  }

  /** Memory: shapes, the trie's own invariant, reference counts. */
  ghost predicate MemoryOk(cfg: Config, e: State) {
    && Shaped(cfg.bs, StoreOf(e)) && |e.pool.ref| == cfg.numBlocks
    && FreeListOk(e.pool)
    && TreeOk(e.tree)
    && Counts(e.pool, Held(e))
  }

  ghost predicate PagedOk(cfg: Config, r: Req) {
    var n := |r.Table()|;
    && r.computed <= n * cfg.bs
    && (n > 0 ==> (n - 1) * cfg.bs < r.computed)
    && r.Adopted() <= n && r.Adopted() * cfg.bs <= r.computed
    && (r.kv.Some? ==> r.kv.value.length == r.computed)
  }

  ghost predicate RunningOk(cfg: Config, r: Req) {
    && r.prompt != [] && r.kv.Some? && PagedOk(cfg, r)
    && r.Adopted() * cfg.bs <= |r.prompt|
    && match r.status
       case Prefill => r.computed < r.PrefillTarget() && |r.output| < r.maxTokens
       case Running => r.computed == r.PrefillTarget() && 0 < |r.output| < r.maxTokens
       case Finished => r.computed == r.PrefillTarget() && r.output != []
       case _ => false
  }

  ghost predicate WaitingOk(cfg: Config, r: Req) {
    && r.prompt != [] && PagedOk(cfg, r)
    && (r.status == Waiting || r.status == Preempted)
    && |r.output| < r.maxTokens
    && r.computed == |r.Table()| * cfg.bs && r.Adopted() == |r.Table()|
    && r.computed < |r.prompt|
    && (!cfg.caching ==> r.computed == 0)
  }

  ghost predicate ShapesOk(cfg: Config, e: State) {
    && (forall r :: r in e.running ==> RunningOk(cfg, r))
    && (forall r :: r in e.waiting ==> WaitingOk(cfg, r))
  }

  /** Blocks past the adopted prefix have one reference: this table's. */
  ghost predicate PrivateOk(e: State, r: Req) {
    forall i :: r.Adopted() <= i < |r.Table()| ==> Held(e)[r.Table()[i]] == 1
  }

  /** The adopted blocks are the trie's, along the prompt. */
  ghost predicate AdoptedOk(cfg: Config, e: State, r: Req) {
    forall n :: 0 < n <= r.Adopted() && n * cfg.bs <= |r.prompt| && n <= |r.Table()| ==>
      && Chunks(cfg.bs, r.prompt, n) in e.tree.nodes
      && e.tree.nodes[Chunks(cfg.bs, r.prompt, n)].block == r.Table()[n - 1]
  }

  /** The cells below `computed` hold the KV of the request's own tokens. */
  ghost predicate ViewOk(cfg: Config, m: Model, e: State, r: Req) {
    && Shaped(cfg.bs, StoreOf(e)) && InRange(StoreOf(e), r.Table())
    && r.computed <= |r.Table()| * cfg.bs && r.computed <= |r.AllTokens()|
    && Gather(cfg.bs, StoreOf(e), r.Table(), r.computed) == Columns(m, r.AllTokens()[..r.computed])
  }

  ghost predicate OwnershipOk(cfg: Config, e: State) {
    forall r :: r in Queued(e) ==> PrivateOk(e, r) && AdoptedOk(cfg, e, r)
  }

  ghost predicate ViewsOk(cfg: Config, m: Model, e: State) {
    forall r :: r in Queued(e) ==> ViewOk(cfg, m, e, r)
  }

  /** The tokens a root path spells. */
  function Spell(p: Path): seq<Token> {
    if p == [] then [] else Spell(p[..|p| - 1]) + p[|p| - 1]
  }

  /** A node's block holds the KV of the last block_size tokens of its root path. */
  ghost predicate NodeOk(cfg: Config, m: Model, e: State, p: Path)
    requires p in e.tree.nodes
  {
    var b, toks := e.tree.nodes[p].block, Spell(p);
    && p != [] && |toks| == |p| * cfg.bs && b < |e.mem|
    && 0 <= (|p| - 1) * cfg.bs <= |toks|
    && e.mem[b] == Columns(m, toks)[(|p| - 1) * cfg.bs..]
  }

  ghost predicate NodesOk(cfg: Config, m: Model, e: State) {
    forall p :: p in e.tree.nodes ==> NodeOk(cfg, m, e, p)
  }

  /** What has been generated is plain decoding so far, and all of it once finished. */
  ghost predicate OutputOk(m: Model, r: Req) {
    && r.prompt != []
    && if r.status == Finished then r.output == Reference(m, r)
       else if r.status == Aborted then r.output <= Reference(m, r)
       else
         && |r.output| <= r.maxTokens
         && Reference(m, r) == r.output + Continue(m, r.AllTokens(), r.maxTokens - |r.output|, r.ignoreEos)
  }

  ghost predicate OutputsOk(m: Model, e: State) {
    && (forall r :: r in Queued(e) ==> OutputOk(m, r))
    && (forall r :: r in e.done ==> OutputOk(m, r) && (r.status == Finished || r.status == Aborted))
  }

  ghost predicate Distinct(q: seq<Req>) {
    forall i, j :: 0 <= i < j < |q| ==> q[i].id != q[j].id
  }

  ghost predicate IdsOk(e: State) {
    && Distinct(Queued(e))
    && (forall r :: r in Queued(e) ==> r.id < e.nextId)
  }

  /** The invariant of every state inside and between steps. */
  ghost predicate Safe(cfg: Config, m: Model, e: State) {
    && MemoryOk(cfg, e)
    && ShapesOk(cfg, e)
    && OwnershipOk(cfg, e)
    && ViewsOk(cfg, m, e)
    && NodesOk(cfg, m, e)
    && OutputsOk(m, e)
    && IdsOk(e)
  }

  /** Between steps nothing finished is still running. */
  ghost predicate Settled(e: State) {
    forall r :: r in e.running ==> !r.IsFinished()
  }

  // ---- consequences used everywhere

  lemma InQueue(e: State, r: Req)
    ensures r in Queued(e) <==> r in e.running || r in e.waiting
  {
  }

  lemma HeldMember(e: State, r: Req, i: nat)
    requires r in Queued(e) && i < |r.Table()|
    ensures Held(e)[r.Table()[i]] >= 1
    ensures r.Table()[i] in Tables(Queued(e))
    ensures r.Table()[i] in NodeBlocks(e.tree.nodes) ==> Held(e)[r.Table()[i]] >= 2
  {
    TablesMember(Queued(e), r);
    assert r.Table()[i] in multiset(r.Table());
  }

  /** Privately held blocks have reference count one. */
  lemma PrivateRefs(cfg: Config, e: State, r: Req)
    requires MemoryOk(cfg, e) && r in Queued(e) && PrivateOk(e, r)
    ensures PrivateFrom(e.pool, r.Table(), r.Adopted())
  {
    hide TreeOk, Shaped, FreeListOk, Held;
    forall i | r.Adopted() <= i < |r.Table()|
      ensures r.Table()[i] < |e.pool.ref| && e.pool.ref[r.Table()[i]] == 1
    {
      assert r.Table()[i] in Held(e);
    }
  }

  lemma TablesInRange(cfg: Config, e: State, r: Req)
    requires MemoryOk(cfg, e) && r in Queued(e)
    ensures InRange(StoreOf(e), r.Table())
  {
    hide TreeOk, FreeListOk;
    forall i | 0 <= i < |r.Table()|
      ensures r.Table()[i] < |e.mem|
    {
      HeldMember(e, r, i);
      assert r.Table()[i] in Held(e);
    }
  }

  /** A node some queued request adopted is pinned; a pinned node is one some request adopted. */
  lemma PinnedIsAdopted(cfg: Config, e: State, p: Path) returns (r: Req, n: nat)
    requires cfg.bs > 0 && MemoryOk(cfg, e) && ShapesOk(cfg, e) && OwnershipOk(cfg, e)
    requires p in e.tree.nodes && Pinned(CacheOf(e), p)
    ensures r in Queued(e) && 0 < n <= r.Adopted() && n <= |r.Table()| && n * cfg.bs <= |r.prompt|
    ensures p == Chunks(cfg.bs, r.prompt, n)
  {
    hide Shaped, FreeListOk, PrefixClosed, Aged, StampedTogether, PagedOk;
    var b := e.tree.nodes[p].block;
    assert b in NodeBlocks(e.tree.nodes);
    assert b in Held(e);
    assert b in Tables(Queued(e));
    r := TablesWitness(Queued(e), b);
    var i :| 0 <= i < |r.Table()| && r.Table()[i] == b;
    n := i + 1;
    HeldMember(e, r, i);
    AdoptedFits(cfg, e, r);
    assert i < r.Adopted();
    MulMono(n, r.Adopted(), cfg.bs);
    assert e.tree.nodes[Chunks(cfg.bs, r.prompt, n)].block == b;
  }

  lemma AdoptedFits(cfg: Config, e: State, r: Req)
    requires ShapesOk(cfg, e) && r in Queued(e)
    ensures r.Adopted() <= |r.Table()| && r.Adopted() * cfg.bs <= |r.prompt|
  {
  }

  lemma AdoptedIsPinned(cfg: Config, e: State, r: Req, n: nat)
    requires cfg.bs > 0 && MemoryOk(cfg, e) && AdoptedOk(cfg, e, r)
    requires r in Queued(e) && 0 < n <= r.Adopted() && n <= |r.Table()| && n * cfg.bs <= |r.prompt|
    ensures Chunks(cfg.bs, r.prompt, n) in e.tree.nodes
    ensures Pinned(CacheOf(e), Chunks(cfg.bs, r.prompt, n))
  {
    hide Shaped, FreeListOk, TreeOk;
    var p := Chunks(cfg.bs, r.prompt, n);
    var b := r.Table()[n - 1];
    assert b in NodeBlocks(e.tree.nodes);
    HeldMember(e, r, n - 1);
  }

  /** At the scheduler's evictions pins are ancestor-closed, so eviction is exact LRU. */
  lemma PinsAreClosed(cfg: Config, e: State)
    requires cfg.bs > 0 && MemoryOk(cfg, e) && ShapesOk(cfg, e) && OwnershipOk(cfg, e)
    ensures PinClosed(CacheOf(e))
  {
    hide MemoryOk, ShapesOk, Pinned, AdoptedOk;
    forall p {:trigger Parent(p)} | p in e.tree.nodes && |p| > 1 && Parent(p) in e.tree.nodes && Pinned(CacheOf(e), p)
      ensures Pinned(CacheOf(e), Parent(p))
    {
      var r, n := PinnedIsAdopted(cfg, e, p);
      MulMono(n - 1, n, cfg.bs);
      ChunksPrefix(cfg.bs, r.prompt, n, n - 1);
      AdoptedIsPinned(cfg, e, r, n - 1);
    }
  }
}
