/** The engine on values: execute a plan, sample, retire, and the events that drive it. */
module Serving {
  import opened Blocks
  import opened Paging
  import opened Decoding
  import opened Options
  import opened Radix
  import opened Requests
  import opened Scheduling

  // ---- one forward pass over a sequence

  /** The columns of view followed by toks, each computed from all columns before it. */
  function Extend(m: Model, view: seq<Column>, toks: seq<Token>): (cols: seq<Column>)
    ensures |cols| == |view| + |toks|
    decreases |toks|
  {
    if toks == [] then view else Extend(m, view + [m.col(view, toks[0])], toks[1..])
  }

  /** What a forward pass leaves behind: the store, the block table and the sampled token. */
  datatype Pass = Pass(store: Store, table: seq<nat>, token: Token)

  ghost predicate CanInfer(bs: nat, st: Store, table: seq<nat>, toks: seq<Token>) {
    Shaped(bs, st) && FreeListOk(st.pool) && InRange(st, table) && toks != []
  }

  /**
   Run toks at positions start, start + 1, ...: grow the table, read the cells below
   `start` whatever they hold, write the new ones. None stands for an exception
   (OutOfBlocks, a bad index).
   */
  ghost function Infer(bs: nat, m: Model, st: Store, table: seq<nat>, start: nat, toks: seq<Token>): Option<Pass> {
    if !CanInfer(bs, st, table, toks) then None
    else
      EnsureCapacityShape(bs, st, table, start + |toks|);
      var g := EnsureCapacity(bs, st, table, start + |toks|);
      if g.OutOfBlocks? then None
      else
        var cols := Extend(m, Gather(bs, g.store, g.table, start), toks);
        var w := Write(bs, st, table, start, cols[start..]);
        if w.OutOfBlocks? then None
        else Some(Pass(w.store, w.table, m.pick(cols[..|cols| - 1], toks[|toks| - 1])))
  }

  /** A pass that starts within its table reads what the table held before it grew. */
  lemma ReadsBeforeGrowth(bs: nat, st: Store, table: seq<nat>, start: nat, total: nat)
    requires Shaped(bs, st) && FreeListOk(st.pool) && InRange(st, table)
    requires start <= |table| * bs && start <= total
    ensures var g := EnsureCapacity(bs, st, table, total);
      g.Written? ==>
        && Shaped(bs, g.store) && InRange(g.store, g.table) && start <= |g.table| * bs
        && Gather(bs, g.store, g.table, start) == Gather(bs, st, table, start)
  {
    assert bs > 0;
    hide Shaped, FreeListOk, InRange, Gather, BlocksNeeded;
    var g := EnsureCapacity(bs, st, table, total);
    EnsureCapacityShape(bs, st, table, total);
    if g.Written? {
      assert g.table == table + g.table[|table|..];
      GatherGrown(bs, st, table, g.store.pool, g.table[|table|..], start);
    }
  }

  /** So such a pass computes its columns from the cells already in the table. */
  lemma ReadsWritten(bs: nat, m: Model, st: Store, table: seq<nat>, start: nat, toks: seq<Token>)
    requires CanInfer(bs, st, table, toks) && start <= |table| * bs
    ensures var cols := Extend(m, Gather(bs, st, table, start), toks);
      var w := Write(bs, st, table, start, cols[start..]);
      Infer(bs, m, st, table, start, toks) ==
        if w.OutOfBlocks? then None else Some(Pass(w.store, w.table, m.pick(cols[..|cols| - 1], toks[|toks| - 1])))
  {
    hide Shaped, FreeListOk, InRange, Gather, EnsureCapacity, Extend, WriteFrom;
    ReadsBeforeGrowth(bs, st, table, start, start + |toks|);
  }

  // ---- one request's pass

  ghost predicate CanFeed(cfg: Config, e: State, r: Req, toks: seq<Token>) {
    r.kv.Some? && CanInfer(cfg.bs, StoreOf(e), r.Table(), toks)
  }

  ghost function Forward(cfg: Config, m: Model, e: State, r: Req, start: nat, toks: seq<Token>): Option<Pass> {
    if r.kv.None? then None else Infer(cfg.bs, m, StoreOf(e), r.Table(), start, toks)
  }

  function Advance(r: Req, p: Pass, total: nat): Req {
    r.(kv := Some(SeqKV(p.table, total, r.Adopted())), computed := total)
  }

  function Commit(e: State, i: nat, p: Pass, r: Req): State
    requires i < |e.running|
  {
    e.(pool := p.store.pool, mem := p.store.mem, running := e.running[i := r])
  }

  /** One prefill chunk; the last chunk of a request that has generated nothing samples a token. */
  ghost function ExecChunk(cfg: Config, m: Model, e: State, c: Slice): Option<State> {
    var i := Find(e.running, c.id);
    if i == |e.running| || c.start + c.count > |e.running[i].PrefillTokens()| then None
    else
      var r := e.running[i];
      var f := Forward(cfg, m, e, r, c.start, r.PrefillTokens()[c.start..c.start + c.count]);
      if f.None? then None
      else
        var r1 := Advance(r, f.value, c.start + c.count);
        var r2 := if c.final then r1.(status := Running) else r1;
        var r3 := if c.final && r.output == [] then r2.Emit(f.value.token) else r2;
        Some(Commit(e, i, f.value, r3))
  }

  ghost function ExecChunks(cfg: Config, m: Model, e: State, cs: seq<Slice>): Option<State>
    decreases |cs|
  {
    if cs == [] then Some(e)
    else
      var e' := ExecChunk(cfg, m, e, cs[0]);
      if e'.None? then None else ExecChunks(cfg, m, e'.value, cs[1..])
  }

  /** One sequence of the decode batch: feed its last token, sample the next. */
  ghost function ExecDecode(cfg: Config, m: Model, e: State, id: nat): Option<State> {
    var i := Find(e.running, id);
    if i == |e.running| || e.running[i].kv.None? || e.running[i].status != Running then Some(e)
    else if e.running[i].prompt == [] then None
    else
      var r := e.running[i];
      var f := Forward(cfg, m, e, r, r.computed, [r.LastToken()]);
      if f.None? then None
      else Some(Commit(e, i, f.value, Advance(r, f.value, r.computed + 1).Emit(f.value.token)))
  }

  ghost function ExecDecodes(cfg: Config, m: Model, e: State, ids: seq<nat>): Option<State>
    decreases |ids|
  {
    if ids == [] then Some(e)
    else
      var e' := ExecDecode(cfg, m, e, ids[0]);
      if e'.None? then None else ExecDecodes(cfg, m, e'.value, ids[1..])
  }

  // ---- retiring

  /** The completely filled blocks, the only ones safe to cache. */
  function FullBlocks(cfg: Config, r: Req): seq<nat>
    requires cfg.bs > 0
  {
    if r.kv.None? then [] else
      var k := r.kv.value.length / cfg.bs;
      if k <= |r.Table()| then r.Table()[..k] else r.Table()
  }

  /** Publish a sequence's full blocks into the prefix cache. */
  ghost function CommitPrefix(cfg: Config, e: State, r: Req): State
    requires cfg.bs > 0
  {
    if !cfg.caching || r.kv.None? then e
    else
      var c := Insert(cfg.bs, CacheOf(e), r.AllTokens(), FullBlocks(cfg, r), cfg.maxCached);
      e.(tree := c.tree, pool := c.pool)
  }

  /** Release a running request's KV and take it off the running list. */
  function Drop(e: State, i: nat, r: Req): State
    requires i < |e.running|
  {
    e.(pool := FreeMany(e.pool, e.running[i].Table()), running := Without(e.running, i), done := e.done + [r])
  }

  ghost function Retire(cfg: Config, e: State, i: nat): State
    requires cfg.bs > 0 && i < |e.running|
  {
    var r := e.running[i];
    Drop(CommitPrefix(cfg, e, r), i, r.(kv := None))
  }

  ghost function RetireFrom(cfg: Config, e: State, i: nat): State
    requires cfg.bs > 0 && i <= |e.running|
    decreases |e.running| - i
  {
    if i == |e.running| then e
    else if e.running[i].IsFinished() then RetireFrom(cfg, Retire(cfg, e, i), i)
    else RetireFrom(cfg, e, i + 1)
  }

  // ---- the step

  ghost function Execute(cfg: Config, m: Model, w: Work): Option<State>
    requires cfg.bs > 0
  {
    var e1 := ExecChunks(cfg, m, w.st, w.chunks);
    if e1.None? then None
    else
      var e2 := ExecDecodes(cfg, m, e1.value, w.decodes);
      if e2.None? then None else Some(RetireFrom(cfg, e2.value, 0))
  }

  /** LLMEngine.step(): schedule, execute, sample, retire. */
  ghost function Step(cfg: Config, m: Model, e: State): Option<State>
    requires cfg.bs > 0
  {
    var w := Schedule(cfg, e);
    if Empty(w) then Some(w.st) else Execute(cfg, m, w)
  }

  // ---- submission and abort

  predicate Acceptable(cfg: Config, prompt: seq<Token>, maxTokens: int) {
    && prompt != [] && maxTokens > 0
    && (forall t :: t in prompt ==> 0 <= t < cfg.vocab)
    && |prompt| + maxTokens <= cfg.maxModelLen
  }

  function NewRequest(id: nat, prompt: seq<Token>, maxTokens: nat, ignoreEos: bool): Req {
    Req(id, prompt, maxTokens, ignoreEos, Waiting, [], None, 0)
  }

  /** add_request: a malformed request is rejected before it touches anything. */
  function Submit(cfg: Config, e: State, prompt: seq<Token>, maxTokens: int, ignoreEos: bool): State {
    if !Acceptable(cfg, prompt, maxTokens) then e
    else e.(waiting := e.waiting + [NewRequest(e.nextId, prompt, maxTokens, ignoreEos)], nextId := e.nextId + 1)
  }

  /** abort_request: release and forget, wherever the request is queued. */
  function Abort(e: State, id: nat): State {
    var i := Find(e.waiting, id);
    if i < |e.waiting| then
      var r := e.waiting[i];
      e.(pool := FreeMany(e.pool, r.Table()), waiting := Without(e.waiting, i),
         done := e.done + [r.(kv := None, status := Aborted)])
    else
      var j := Find(e.running, id);
      if j < |e.running| then Drop(e, j, e.running[j].(kv := None, status := Aborted)) else e
  }

  datatype Event = Add(prompt: seq<Token>, maxTokens: int, ignoreEos: bool) | Cancel(id: nat) | Tick

  ghost function Next(cfg: Config, m: Model, e: State, ev: Event): Option<State>
    requires cfg.bs > 0
  {
    match ev
    case Add(prompt, maxTokens, ignoreEos) => Some(Submit(cfg, e, prompt, maxTokens, ignoreEos))
    case Cancel(id) => Some(Abort(e, id))
    case Tick => Step(cfg, m, e)
  }

  function Init(cfg: Config, m: Model): State {
    State(Initial(cfg.numBlocks), seq(cfg.numBlocks, _ => seq(cfg.bs, _ => m.blank)), EmptyTree, [], [], [], 0)
  }

  /** The state after a run; None when some step raised. */
  ghost function Run(cfg: Config, m: Model, events: seq<Event>): Option<State>
    requires cfg.bs > 0
    decreases |events|
  {
    if events == [] then Some(Init(cfg, m))
    else
      var e := Run(cfg, m, events[..|events| - 1]);
      if e.None? then None else Next(cfg, m, e.value, events[|events| - 1])
  }
}
