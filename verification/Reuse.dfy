/**
 What the engine makes of the prefix cache: a request adopts the longest cached prefix
 of its prompt, a finished one publishes every block it has filled, and neither the cap
 nor a stall takes more from the cache than it has to.
 */
module Reuse {
  import opened Numbers
  import opened Blocks
  import opened Decoding
  import opened Options
  import opened Radix
  import opened RadixLaws
  import opened Requests
  import opened Scheduling
  import opened Serving
  import opened Safety
  import opened SafetyMoves
  import opened SafetyRetire
  import opened ScheduleFacts
  import opened Stalls
  import opened Thrift

  // ---- adoption

  /** The head of the queue after its lookup: all cached blocks of its prompt, up to its last token. */
  ghost predicate AdoptsLongest(cfg: Config, e: State, h: Req) {
    && h.kv == Some(SeqKV(h.Table(), h.computed, |h.Table()|))
    && h.computed == |h.Table()| * cfg.bs < |h.prompt|
    && (!cfg.caching ==> h.Table() == [])
    && (cfg.caching ==> forall k: nat :: 0 < k && k * cfg.bs < |h.prompt| ==>
          && (k <= |h.Table()| <==> Chunks(cfg.bs, h.prompt, k) in e.tree.nodes)
          && (k <= |h.Table()| ==> h.Table()[k - 1] == e.tree.nodes[Chunks(cfg.bs, h.prompt, k)].block))
  }

  /**
   A request that has no KV yet looks its prompt up. What it had generated before it was
   preempted is computed again.
   */
  lemma AttachAdoptsLongest(cfg: Config, m: Model, e: State)
    requires cfg.bs > 0 && Safe(cfg, m, e) && e.waiting != [] && e.waiting[0].kv.None?
    ensures var e' := Attach(cfg, e);
      && e'.running == e.running && |e'.waiting| == |e.waiting| && e'.waiting[1..] == e.waiting[1..]
      && e'.waiting[0].(kv := None, computed := 0) == e.waiting[0]
      && AdoptsLongest(cfg, e, e'.waiting[0])
  {
    hide *;
    SafeMemoryOk(cfg, m, e);
    HeadWaits(cfg, m, e);
    AttachIs(cfg, e);
    if cfg.caching {
      LongestIs(cfg, e, e.waiting[0].prompt);
    }
    LongestAdopted(cfg, e, e.waiting[0]);
  }

  function Adopting(cfg: Config, r: Req, blocks: seq<nat>): Req {
    if blocks == [] then r.(kv := Some(SeqKV([], 0, 0)))
    else r.(kv := Some(SeqKV(blocks, |blocks| * cfg.bs, |blocks|)), computed := |blocks| * cfg.bs)
  }

  lemma AttachIs(cfg: Config, e: State)
    requires cfg.bs > 0 && e.waiting != [] && e.waiting[0].kv.None?
    ensures var e', r := Attach(cfg, e), e.waiting[0];
      && e'.running == e.running && |e'.waiting| == |e.waiting| && e'.waiting[1..] == e.waiting[1..]
      && e'.waiting[0] == Adopting(cfg, r, if cfg.caching then MatchBlocks(cfg.bs, e.tree, r.prompt) else [])
  {
    hide MatchBlocks, MatchTree, IncrefMany;
  }

  lemma LongestAdopted(cfg: Config, e: State, r: Req)
    requires cfg.bs > 0 && r.kv.None? && r.computed == 0 && r.prompt != []
    requires cfg.caching ==>
      var blocks := MatchBlocks(cfg.bs, e.tree, r.prompt);
      && |blocks| * cfg.bs < |r.prompt|
      && forall k: nat :: 0 < k && k * cfg.bs < |r.prompt| ==>
           && (k <= |blocks| <==> Chunks(cfg.bs, r.prompt, k) in e.tree.nodes)
           && (k <= |blocks| ==> blocks[k - 1] == e.tree.nodes[Chunks(cfg.bs, r.prompt, k)].block)
    ensures var h := Adopting(cfg, r, if cfg.caching then MatchBlocks(cfg.bs, e.tree, r.prompt) else []);
      h.(kv := None, computed := 0) == r && AdoptsLongest(cfg, e, h)
  {
    var blocks := if cfg.caching then MatchBlocks(cfg.bs, e.tree, r.prompt) else [];
    hide MatchBlocks, Chunks;
    var h := Adopting(cfg, r, blocks);
    assert h.Table() == blocks && h.computed == |blocks| * cfg.bs;
  }

  lemma HeadWaits(cfg: Config, m: Model, e: State)
    requires Safe(cfg, m, e) && e.waiting != []
    ensures e.waiting[0].prompt != [] && (e.waiting[0].kv.None? ==> e.waiting[0].computed == 0)
  {
    hide MemoryOk, OwnershipOk, ViewsOk, NodesOk, OutputsOk, IdsOk;
    assert WaitingOk(cfg, e.waiting[0]);
  }

  lemma LongestIs(cfg: Config, e: State, prompt: seq<Token>)
    requires cfg.bs > 0 && MemoryOk(cfg, e) && prompt != []
    ensures var blocks := MatchBlocks(cfg.bs, e.tree, prompt);
      && |blocks| * cfg.bs < |prompt|
      && forall k: nat :: 0 < k && k * cfg.bs < |prompt| ==>
           && (k <= |blocks| <==> Chunks(cfg.bs, prompt, k) in e.tree.nodes)
           && (k <= |blocks| ==> blocks[k - 1] == e.tree.nodes[Chunks(cfg.bs, prompt, k)].block)
  {
    MatchLeavesAToken(cfg.bs, e.tree, prompt);
    assert PrefixClosed(e.tree.nodes);
    hide MatchDepth, PrefixClosed;
    forall k: nat | 0 < k && k * cfg.bs < |prompt|
      ensures k <= |MatchBlocks(cfg.bs, e.tree, prompt)| <==> Chunks(cfg.bs, prompt, k) in e.tree.nodes
      ensures k <= |MatchBlocks(cfg.bs, e.tree, prompt)| ==>
        MatchBlocks(cfg.bs, e.tree, prompt)[k - 1] == e.tree.nodes[Chunks(cfg.bs, prompt, k)].block
    {
      MatchIsLongest(cfg.bs, e.tree, prompt, k);
    }
  }

  // ---- publication

  /** These blocks are all that the request has filled, in order. */
  ghost predicate Filled(cfg: Config, r: Req, blocks: seq<nat>) {
    && |blocks| * cfg.bs <= r.computed < (|blocks| + 1) * cfg.bs
    && |blocks| <= |r.Table()| && blocks == r.Table()[..|blocks|]
  }

  /** A request publishes every block it has filled. */
  lemma FullBlocksFilled(cfg: Config, r: Req)
    requires cfg.bs > 0 && RunningOk(cfg, r)
    ensures Filled(cfg, r, FullBlocks(cfg, r))
  {
    Floor(r.computed, cfg.bs, |r.Table()|);
    FullBlocksIs(cfg, r);
  }

  lemma FullBlocksIs(cfg: Config, r: Req)
    requires cfg.bs > 0 && RunningOk(cfg, r) && r.computed / cfg.bs <= |r.Table()|
    ensures FullBlocks(cfg, r) == r.Table()[..r.computed / cfg.bs]
  {
  }

  lemma Floor(n: nat, bs: nat, t: nat)
    requires bs > 0 && n <= t * bs
    ensures n / bs <= t && n / bs * bs <= n < (n / bs + 1) * bs
  {
    if n / bs > t {
      MulMono(t + 1, n / bs, bs);
    }
  }

  lemma PathHas(bs: nat, toks: seq<Token>, blocks: seq<nat>, k: nat)
    requires bs > 0 && k <= |blocks| && k * bs <= |toks|
    ensures k <= |InsertPath(bs, toks, blocks)| && InsertPath(bs, toks, blocks)[..k] == Chunks(bs, toks, k)
  {
    PageAtLeast(|toks|, k, bs);
    var n := |InsertPath(bs, toks, blocks)|;
    MulMono(n, |toks| / bs, bs);
    ChunksPrefix(bs, toks, n, k);
  }

  /** Before the cap is enforced each filled block is cached under the tokens up to its end. */
  lemma PublishesAll(cfg: Config, m: Model, e: State, i: nat, k: nat)
    requires cfg.bs > 0 && Safe(cfg, m, e) && i < |e.running| && e.running[i].status == Finished
    requires 0 < k && k * cfg.bs <= e.running[i].computed
    ensures k * cfg.bs <= |e.running[i].AllTokens()|
    ensures Chunks(cfg.bs, e.running[i].AllTokens(), k) in Published(cfg, e, e.running[i]).tree.nodes
  {
    SafeRunning(cfg, m, e, i);
    var r := e.running[i];
    FinishedLength(cfg, r);
    hide *;
    FullBlocksFilled(cfg, r);
    var toks, blocks := r.AllTokens(), FullBlocks(cfg, r);
    NotBeyond(cfg, r, blocks, k);
    PathHas(cfg.bs, toks, blocks, k);
    var path := InsertPath(cfg.bs, toks, blocks);
    PublishedNodes(cfg, e, r, path[..k]);
  }

  lemma FinishedLength(cfg: Config, r: Req)
    requires RunningOk(cfg, r) && r.status == Finished
    ensures r.computed <= |r.AllTokens()|
  {
  }

  lemma NotBeyond(cfg: Config, r: Req, blocks: seq<nat>, k: nat)
    requires cfg.bs > 0 && Filled(cfg, r, blocks) && k * cfg.bs <= r.computed
    ensures k <= |blocks|
  {
    if k > |blocks| {
      MulMono(|blocks| + 1, k, cfg.bs);
    }
  }

  lemma PublishedNodes(cfg: Config, e: State, r: Req, p: Path)
    requires cfg.bs > 0 && p <= InsertPath(cfg.bs, r.AllTokens(), FullBlocks(cfg, r)) && p != []
    ensures p in Published(cfg, e, r).tree.nodes
  {
    var now := e.tree.clock + 1;
    InsertFromNodes(CacheOf(e).(tree := e.tree.(clock := now)), InsertPath(cfg.bs, r.AllTokens(), FullBlocks(cfg, r)),
      FullBlocks(cfg, r), 0, now, p);
    hide InsertFrom, InsertPath, FullBlocks;
  }

  /** Publishing leaves as much in the cache as the cap allows. */
  lemma CapIsUsed(cfg: Config, m: Model, e: State, i: nat)
    requires cfg.bs > 0 && cfg.caching && Safe(cfg, m, e) && i < |e.running| && e.running[i].status == Finished
    ensures var before, after := Published(cfg, e, e.running[i]).tree, CommitPrefix(cfg, e, e.running[i]).tree;
      && after.nodes.Keys <= before.nodes.Keys
      && after.cached >= if before.cached <= cfg.maxCached then before.cached else cfg.maxCached
  {
    hide *;
    var r := e.running[i];
    var e1 := Published(cfg, e, r);
    QueuedAt(e, i);
    RunningOwner(cfg, m, e, i);
    SafeRunning(cfg, m, e, i);
    CommitPrefixIs(cfg, e, r);
    RunningHasKV(cfg, r);
    PublishedMemory(cfg, e, r);
    CachedCounts(cfg, e1);
    if e1.tree.cached > cfg.maxCached {
      var k := e1.tree.cached - cfg.maxCached;
      EvictCounts(CacheOf(e1), k, Tables(Queued(e1)));
      EvictRemovesVictims(CacheOf(e1), k);
      VictimsAtMost(CacheOf(e1), k);
      ReclaimedCache(e1, k);
    }
  }

  // ---- a stall

  /** The blocks the head of the queue is short of, and at least one. */
  function Missing(cfg: Config, e: State): nat
    requires cfg.bs > 0 && e.waiting != []
  {
    var short := CeilDiv(e.waiting[0].computed + 1, cfg.bs) - |e.pool.free|;
    if short > 1 then short else 1
  }

  /** With nothing running and nothing planned, that many are taken back, as far as nobody uses them. */
  lemma StallTakesBack(cfg: Config, m: Model, w: Work)
    requires cfg.bs > 0 && Safe(cfg, m, w.st)
    ensures var w' := BreakStall(cfg, w);
      && w'.st.running == w.st.running && w'.st.waiting == w.st.waiting
      && if Empty(w) && w.st.running == [] && w.st.waiting != [] && cfg.caching
         then |w'.st.tree.nodes| + RadixLaws.Min(Missing(cfg, w.st), |Unpinned(CacheOf(w.st))|) == |w.st.tree.nodes|
         else w' == w
  {
    hide *;
    BreakStallIs(cfg, w);
    if w.st.waiting != [] {
      var k := Missing(cfg, w.st);
      MissingIs(cfg, w.st);
      ReclaimSafe(cfg, m, w.st, k);
      NodesLeft(cfg, m, w.st, k);
    }
  }

  lemma MissingIs(cfg: Config, e: State)
    requires cfg.bs > 0 && e.waiting != []
    ensures var short := CeilDiv(e.waiting[0].computed + 1, cfg.bs) - |e.pool.free|;
      Missing(cfg, e) == if short > 1 then short else 1
  {
  }
}
