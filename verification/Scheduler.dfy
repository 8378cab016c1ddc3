/**
 The scheduler on values: one call of schedule() as a function of the engine
 state. Queues are sequences of request records; an update of a request object
 replaces its record where it is queued.
 */
module Scheduling {
  import opened Numbers
  import opened Blocks
  import opened Paging
  import opened Decoding
  import opened Options
  import opened Radix
  import opened Requests

  datatype Config = Config(
    bs: nat,             // block_size
    numBlocks: nat,      // num_gpu_blocks
    watermark: nat,      // blocks kept free by admission
    maxSeqs: nat,
    budget: nat,         // max_num_batched_tokens
    chunked: bool,
    caching: bool,
    preemption: bool,
    maxCached: nat,      // cap of the prefix cache
    maxModelLen: nat,
    vocab: nat)

  datatype State = State(
    pool: Pool,
    mem: seq<seq<Column>>,
    tree: Tree,
    running: seq<Req>,
    waiting: seq<Req>,
    done: seq<Req>,
    nextId: nat)

  datatype Slice = Slice(id: nat, start: nat, count: nat, final: bool)

  /** schedule()'s local variables. */
  datatype Work = Work(
    st: State,
    budget: int,
    reserved: nat,
    scheduled: set<nat>,
    decodes: seq<nat>,
    chunks: seq<Slice>)

  function StoreOf(e: State): Store { Store(e.pool, e.mem) }

  function CacheOf(e: State): Cache { Cache(e.tree, e.pool) }

  /** All queued requests, in queue order. */
  function Queued(e: State): seq<Req> { e.running + e.waiting }

  function Need(cfg: Config, r: Req, total: nat): nat
    requires cfg.bs > 0
  {
    BlocksNeeded(cfg.bs, r.Table(), total)
  }

  function FreeBlocks(cfg: Config, e: State): int { |e.pool.free| - cfg.watermark }

  function Available(cfg: Config, w: Work): int { FreeBlocks(cfg, w.st) - w.reserved }

  /** The index of a request in a queue, or its length. */
  function Find(q: seq<Req>, id: nat): (i: nat)
    ensures i <= |q|
    ensures i < |q| ==> q[i].id == id
    ensures forall j :: 0 <= j < i ==> q[j].id != id
  {
    if q == [] then 0 else if q[0].id == id then 0 else 1 + Find(q[1..], id)
  }

  function Without(q: seq<Req>, i: nat): seq<Req>
    requires i < |q|
  {
    q[..i] + q[i + 1..]
  }

  // ---- making room

  /** Evict from the prefix cache. */
  ghost function Reclaim(e: State, k: nat): State {
    var c := Evict(CacheOf(e), k);
    e.(tree := c.tree, pool := c.pool)
  }

  /** The newest running request not protected, or none. */
  function NewestUnprotected(running: seq<Req>, protected: set<nat>): (v: Option<nat>)
    ensures v.Some? ==> v.value < |running| && running[v.value].id !in protected
    ensures v.Some? ==> forall j :: v.value < j < |running| ==> running[j].id in protected
    ensures v.None? ==> forall j :: 0 <= j < |running| ==> running[j].id in protected
  {
    if running == [] then None
    else
      var last := |running| - 1;
      if running[last].id !in protected then Some(last)
      else NewestUnprotected(running[..last], protected)
  }

  /** Release a running request's KV and put it at the front of the queue. */
  function Preempt(e: State, i: nat): State
    requires i < |e.running|
  {
    var r := e.running[i];
    e.(pool := FreeMany(e.pool, r.Table()), running := Without(e.running, i), waiting := [r.Reset()] + e.waiting)
  }

  function PreemptUntil(cfg: Config, e: State, needed: nat, protected: set<nat>): State
    decreases |e.running|
  {
    if FreeBlocks(cfg, e) >= needed then e
    else
      match NewestUnprotected(e.running, protected)
      case None => e
      case Some(i) => PreemptUntil(cfg, Preempt(e, i), needed, protected)
  }

  ghost function ReclaimFor(cfg: Config, e: State, needed: nat): State {
    if cfg.caching && needed - FreeBlocks(cfg, e) > 0 then Reclaim(e, needed - FreeBlocks(cfg, e)) else e
  }

  /** Cheapest memory first: cached blocks, then the newest running requests. */
  ghost function MakeRoom(cfg: Config, e: State, needed: nat, protected: set<nat>): State {
    var e' := ReclaimFor(cfg, e, needed);
    if cfg.preemption then PreemptUntil(cfg, e', needed, protected) else e'
  }

  // ---- 1. decodes

  function TakeDecode(w: Work, id: nat, needed: nat): Work {
    w.(reserved := w.reserved + needed, scheduled := w.scheduled + {id}, decodes := w.decodes + [id], budget :=
      w.budget - 1)
  }

  ghost function DecodeOne(cfg: Config, w: Work, id: nat): Work
    requires cfg.bs > 0
  {
    var i := Find(w.st.running, id);
    if i == |w.st.running| then w                       // preempted meanwhile
    else
      var r := w.st.running[i];
      if !r.PrefillDone() then w
      else
        var needed := Need(cfg, r, r.computed + 1);
        if needed <= Available(cfg, w) then TakeDecode(w, id, needed)
        else
          var w' := w.(st := MakeRoom(cfg, w.st, needed + w.reserved, w.scheduled + {id}));
          if needed <= Available(cfg, w') then TakeDecode(w', id, needed) else w'
  }

  /** Phase 1 walks over the requests that were running when the step began. */
  ghost function DecodePhase(cfg: Config, w: Work, ids: seq<nat>): Work
    requires cfg.bs > 0
    decreases |ids|
  {
    if ids == [] || w.budget <= 0 then w
    else DecodePhase(cfg, DecodeOne(cfg, w, ids[0]), ids[1..])
  }

  // ---- 2. in-flight prefills

  /** The next slice of a prompt that budget and memory allow. */
  function MakeChunk(cfg: Config, r: Req, budget: int, available: int): (c: Option<Slice>)
    requires cfg.bs > 0
  {
    var remaining := r.RemainingPrefill();
    if remaining == 0 || budget <= 0 || (!cfg.chunked && remaining > budget) then None
    else
      var want := if remaining < budget then remaining else budget;
      var room := (|r.Table()| + if available > 0 then available else 0) * cfg.bs - r.computed;
      var take := if Need(cfg, r, r.computed + want) <= available || want <= room then want else room;
      if take <= 0 then None
      else Some(Slice(r.id, r.computed, take, r.computed + take >= r.PrefillTarget()))
  }

  function TakeChunk(cfg: Config, w: Work, r: Req, c: Slice): Work
    requires cfg.bs > 0
  {
    w.(reserved := w.reserved + Need(cfg, r, c.start + c.count), scheduled := w.scheduled + {c.id},
       chunks := w.chunks + [c], budget := w.budget - c.count)
  }

  function PrefillOne(cfg: Config, w: Work, r: Req): Work
    requires cfg.bs > 0
  {
    if r.PrefillDone() then w
    else
      match MakeChunk(cfg, r, w.budget, Available(cfg, w))
      case None => w
      case Some(c) => TakeChunk(cfg, w, r, c)
  }

  function PrefillPhase(cfg: Config, w: Work, i: nat): Work
    requires cfg.bs > 0 && i <= |w.st.running|
    decreases |w.st.running| - i
  {
    if i == |w.st.running| || w.budget <= 0 then w
    else PrefillPhase(cfg, PrefillOne(cfg, w, w.st.running[i]), i + 1)
  }

  // ---- 3. admission

  /** A fresh sequence view, adopting the longest cached prefix of the prompt. */
  function Attach(cfg: Config, e: State): State
    requires cfg.bs > 0 && e.waiting != []
  {
    var r := e.waiting[0];
    if r.kv.Some? then e
    else if !cfg.caching then e.(waiting := [r.(kv := Some(SeqKV([], 0, 0)))] + e.waiting[1..])
    else
      var blocks := MatchBlocks(cfg.bs, e.tree, r.prompt);
      var matched := |blocks| * cfg.bs;
      var r' := if blocks == [] then r.(kv := Some(SeqKV([], 0, 0)))
                else r.(kv := Some(SeqKV(blocks, matched, |blocks|)), computed := matched);
      e.(tree := MatchTree(cfg.bs, e.tree, r.prompt), pool := IncrefMany(e.pool, blocks), waiting :=
        [r'] + e.waiting[1..])
  }

  /** Move the attached head of the queue to the running list. */
  function Admit(e: State): State
    requires e.waiting != []
  {
    e.(running := e.running + [e.waiting[0].(status := Prefill)], waiting := e.waiting[1..])
  }

  /** Undo an admission that could not get a single token: the KV goes, the position stays. */
  function RollBack(e: State): State
    requires e.running != []
  {
    var last := |e.running| - 1;
    var r := e.running[last];
    e.(pool := FreeMany(e.pool, r.Table()), running := e.running[..last],
       waiting := [r.(kv := None, status := Waiting)] + e.waiting)
  }

  function AdmitPhase(cfg: Config, w: Work): Work
    requires cfg.bs > 0
    decreases |w.st.waiting|
  {
    if w.st.waiting == [] || w.budget <= 0 || |w.st.running| >= cfg.maxSeqs then w
    else
      var e := Attach(cfg, w.st);
      var w1 := w.(st := e);
      if Need(cfg, e.waiting[0], e.waiting[0].computed + 1) > Available(cfg, w1) then w1
      else
        var w2 := w.(st := Admit(e));
        var r := w2.st.running[|w2.st.running| - 1];
        match MakeChunk(cfg, r, w2.budget, Available(cfg, w2))
        case None => w.(st := RollBack(w2.st))
        case Some(c) => AdmitPhase(cfg, TakeChunk(cfg, w2, r, c))
  }

  // ---- 4. forward progress

  predicate Empty(w: Work) { w.decodes == [] && w.chunks == [] }

  /** Nothing runs and nothing was scheduled: take blocks back from the cache for the head of the queue. */
  ghost function BreakStall(cfg: Config, w: Work): Work
    requires cfg.bs > 0
  {
    if Empty(w) && w.st.running == [] && w.st.waiting != [] && cfg.caching then
      var needed := CeilDiv(w.st.waiting[0].computed + 1, cfg.bs);
      var short := needed - |w.st.pool.free|;
      w.(st := Reclaim(w.st, if short > 1 then short else 1))
    else w
  }

  /** Everything running is blocked: evict until the oldest request can take its next block. */
  ghost function ForceHead(cfg: Config, w: Work): Work
    requires cfg.bs > 0
  {
    if Empty(w) && w.st.running != [] && w.st.running[0].PrefillDone() && w.st.running[0].kv.Some? then
      var head := w.st.running[0];
      var needed := Need(cfg, head, head.computed + 1);
      var w' := if needed > |w.st.pool.free| then w.(st := MakeRoom(cfg, w.st, needed, {head.id})) else w;
      if needed <= |w'.st.pool.free|
      then w'.(scheduled := w'.scheduled + {head.id}, decodes := w'.decodes + [head.id])
      else w'
    else w
  }

  function Ids(q: seq<Req>): (ids: seq<nat>)
    ensures |ids| == |q|
    ensures forall i :: 0 <= i < |q| ==> ids[i] == q[i].id
  {
    seq(|q|, i requires 0 <= i < |q| => q[i].id)
  }

  /** One call of schedule(). */
  ghost function Schedule(cfg: Config, e: State): Work
    requires cfg.bs > 0
  {
    var w0 := Work(e, cfg.budget, 0, {}, [], []);
    var w1 := DecodePhase(cfg, w0, Ids(e.running));
    var w2 := PrefillPhase(cfg, w1, 0);
    var w3 := AdmitPhase(cfg, w2);
    ForceHead(cfg, BreakStall(cfg, w3))
  }
}
