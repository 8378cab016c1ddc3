/** The scheduler as an object: queues of request objects over a paged cache and a prefix cache. */
module SchedulerObject {
  import opened Options
  import opened Numbers
  import opened Blocks
  import opened Allocation
  import opened Decoding
  import opened Paging
  import opened SequenceViews
  import opened Radix
  import opened PrefixCache
  import opened Requests
  import opened RequestObject
  import opened Scheduling
  import opened Serving
  import opened Safety
  import opened SafetyMoves
  import opened SafetyAdmission
  import opened SafetyPlan
  import opened SafetySchedule
  import opened SafetyRetire
  import opened ScheduleFacts

  /** In a safe state the blocks of a queued request can all be given back. */
  lemma TableIsLive(cfg: Config, m: Model, e: State, r: Req)
    requires Safe(cfg, m, e) && r in Queued(e)
    ensures AllLive(e.pool, r.Table())
  {
    hide TreeOk, ShapesOk, OwnershipOk, ViewsOk, NodesOk, OutputsOk, IdsOk, Shaped, Tables, NodeBlocks, Queued,
      AllLive, FreeListOk, Counts;
    TablesMember(Queued(e), r);
    HeldIsLive(e.pool, r.Table(), Held(e));
  }

  /** Requests of a safe state are different objects with different views. */
  lemma ApartFrom(e: State, own: Owner, running: seq<Request>, waiting: seq<Request>, i: nat)
    requires Distinct(Queued(e)) && Coupled(own, running, e.running) && Coupled(own, waiting, e.waiting)
    requires i < |running| + |waiting|
    ensures var r := if i < |running| then running[i] else waiting[i - |running|];
      && (forall j :: 0 <= j < |running| && j != i ==>
            running[j] != r && (running[j].kv == null || running[j].kv != r.kv))
      && (forall j :: 0 <= j < |waiting| && j + |running| != i ==>
            waiting[j] != r && (waiting[j].kv == null || waiting[j].kv != r.kv))
  {
    hide Views;
    var q, r := Queued(e), if i < |running| then running[i] else waiting[i - |running|];
    forall j | 0 <= j < |running| && j != i
      ensures running[j] != r && (running[j].kv == null || running[j].kv != r.kv)
    {
      assert q[j] == e.running[j];
      HoldsParts(own, running[j], e.running[j]);
      HoldsParts(own, r, q[i]);
    }
    forall j | 0 <= j < |waiting| && j + |running| != i
      ensures waiting[j] != r && (waiting[j].kv == null || waiting[j].kv != r.kv)
    {
      assert q[j + |running|] == e.waiting[j];
      HoldsParts(own, waiting[j], e.waiting[j]);
      HoldsParts(own, r, q[i]);
    }
  }

  /** A larger set of objects holds the same records. */
  lemma HoldMore(own: Owner, own': Owner, running: seq<Request>, rs: seq<Req>, waiting: seq<Request>, ws: seq<Req>)
    requires own' == own.(repr := own'.repr) && own.repr <= own'.repr
    requires |running| == |rs| && |waiting| == |ws| && waiting != []
    requires forall j :: 0 <= j < |running| ==> Holds(own, running[j], rs[j])
    requires forall j :: 1 <= j < |waiting| ==> Holds(own, waiting[j], ws[j])
    ensures forall j :: 0 <= j < |running| ==> Holds(own', running[j], rs[j])
    ensures forall j :: 1 <= j < |waiting| ==> Holds(own', waiting[j], ws[j])
  {
  }

  lemma NewViewHolds(own: Owner, r: Request, rec: Req)
    requires r in own.repr && r.id in own.byId && own.byId[r.id] == r
    requires r.kv != null && r.kv in own.repr && r.kv.cache == own.cache && r.kv.owner == r.id
    requires rec == Req(r.id, r.prompt, r.maxTokens, r.ignoreEos, r.status, r.output, None, r.computed)
    requires r.kv.blockTable == [] && r.kv.length == 0 && r.kv.numCachedPrefix == 0
    ensures Holds(own, r, rec.(kv := Some(SeqKV([], 0, 0))))
  {
  }

  lemma NotAdopted(cfg: Config, e: State)
    requires cfg.bs > 0 && e.waiting != [] && !cfg.caching
    ensures Adopted(cfg, e) == e
  {
  }

  lemma QueuedAtHead(e: State)
    requires e.waiting != []
    ensures |e.running| < |Queued(e)| && Queued(e)[|e.running|] == e.waiting[0]
  {
  }

  lemma SameQueued(e: State, e': State)
    requires e'.running == e.running && e'.waiting == e.waiting
    ensures Queued(e') == Queued(e)
  {
  }

  lemma MatchedLive(cfg: Config, m: Model, e: State)
    requires cfg.bs > 0 && Safe(cfg, m, e) && e.waiting != []
    ensures AllIncref(e.pool, MatchBlocks(cfg.bs, e.tree, e.waiting[0].prompt))
  {
    hide ShapesOk, OwnershipOk, ViewsOk, NodesOk, OutputsOk, IdsOk, Shaped, MatchBlocks, FreeListOk, NodeBlocks, Aged,
      StampedTogether, OneBlockEach, PrefixClosed;
    var blocks := MatchBlocks(cfg.bs, e.tree, e.waiting[0].prompt);
    MatchedInTrie(cfg.bs, e.tree, e.waiting[0].prompt);
    forall b | b in blocks
      ensures Live(e.pool, b)
    {
      assert b in Held(e);
    }
  }

  lemma MatchedInTrie(bs: nat, t: Tree, toks: seq<Token>)
    requires bs > 0
    ensures forall b :: b in MatchBlocks(bs, t, toks) ==> b in NodeBlocks(t.nodes)
  {
    hide Usable;
    var path, blocks := Usable(bs, toks), MatchBlocks(bs, t, toks);
    forall i | 0 <= i < |blocks|
      ensures blocks[i] in NodeBlocks(t.nodes)
    {
      assert path[..i + 1] in t.nodes;
    }
  }

  lemma WithViewDistinct(e: State)
    requires e.waiting != [] && Distinct(Queued(e))
    ensures Distinct(Queued(WithView(e)))
  {
    var q, q' := Queued(e), Queued(WithView(e));
    assert forall i :: 0 <= i < |q| ==> q'[i].id == q[i].id;
  }

  lemma NeedIs(cfg: Config, r: Req)
    requires cfg.bs > 0
    ensures Need(cfg, r, r.computed + 1) == Paging.BlocksNeeded(cfg.bs, r.Table(), r.computed + 1)
  {
  }

  lemma NeedFor(cfg: Config, r: Req, total: nat)
    requires cfg.bs > 0
    ensures Need(cfg, r, total) == Paging.BlocksNeeded(cfg.bs, r.Table(), total)
  {
  }

  lemma NeedOf(s: SequenceKV, total: nat)
    requires s.cache.blockSize > 0
    ensures s.BlocksNeeded(total) == Paging.BlocksNeeded(s.cache.blockSize, s.blockTable, total)
  {
  }

  lemma StatusHolds(own: Owner, r: Request, rec: Req, s: Status)
    requires r in own.repr && r.id in own.byId && own.byId[r.id] == r
    requires r.kv != null ==> r.kv in own.repr && r.kv.cache == own.cache && r.kv.owner == r.id
    requires r.Value() == rec.(status := s)
    ensures Holds(own, r, rec.(status := s))
  {
  }

  lemma RollBackIs(e: State)
    requires e.running != []
    ensures var e', k := Scheduling.RollBack(e), |e.running| - 1;
      && k < |Queued(e)| && Queued(e)[k] == e.running[k]
      && e'.pool == FreeMany(e.pool, e.running[k].Table()) && e'.mem == e.mem && e'.tree == e.tree
      && e'.running == Except(e.running, k) && e'.waiting == [RolledBack(e.running[k])] + e.waiting
      && e'.done == e.done && e'.nextId == e.nextId
      && RolledBack(e.running[k]) == e.running[k].(kv := None).(status := Waiting)
  {
  }

  lemma SpreadCapacity(a: nat, b: nat, bs: nat)
    ensures a * bs + b * bs == (a + b) * bs
  {
  }

  lemma EmptyView(r: Req)
    ensures r.kv == Some(SeqKV([], 0, 0)) ==> r.Table() == []
  {
  }

  lemma NoBlocks(n: nat, bs: nat)
    requires bs > 0 && n * bs == 0
    ensures n == 0
  {
  }

  lemma AdoptedHolds(cfg: Config, own: Owner, r: Request, rec: Req, blocks: seq<nat>)
    requires r in own.repr && r.id in own.byId && own.byId[r.id] == r && cfg.bs > 0 && blocks != []
    requires r.kv != null && r.kv in own.repr && r.kv.cache == own.cache && r.kv.owner == r.id
    requires own.cache.blockSize == cfg.bs
    requires rec.(kv := None, computed := 0) ==
      Req(r.id, r.prompt, r.maxTokens, r.ignoreEos, r.status, r.output, None, 0)
    requires r.kv.blockTable == blocks && r.kv.length == r.kv.numCachedPrefix == r.computed == |blocks| * cfg.bs
    ensures Holds(own, r, AdoptedReq(cfg, rec, blocks))
  {
    WholeBlocks(|blocks|, cfg.bs);
  }

  lemma CoupledHead(own: Owner, q: seq<Request>, rs: seq<Req>, rec: Req)
    requires q != [] && |q| == |rs| && Holds(own, q[0], rec)
    requires forall j :: 1 <= j < |q| ==> Holds(own, q[j], rs[j])
    ensures Coupled(own, q, [rec] + rs[1..])
  {
  }

  lemma NoTable(p: Pool, r: Req)
    ensures r.kv.None? ==> FreeMany(p, r.Table()) == p
  {
  }

  lemma ResetKeeps(r: Req)
    ensures var r' := r.Reset();
      r'.AllTokens() == r.AllTokens() && r'.output == r.output && r'.computed == 0 && r'.kv.None?
  {
  }

  lemma PreemptIs(e: State, i: nat)
    requires i < |e.running|
    ensures var e', r := Scheduling.Preempt(e, i), e.running[i];
      && e'.pool == FreeMany(e.pool, r.Table()) && e'.mem == e.mem && e'.tree == e.tree
      && e'.running == Except(e.running, i) && e'.waiting == [r.Reset()] + e.waiting
      && e'.done == e.done && e'.nextId == e.nextId
      && r.Reset().status == Preempted
      && i < |Queued(e)| && Queued(e)[i] == r
      && |Except(e.running, i)| < |e.running|
  {
  }

  /** The next slice of a request's prompt; its token ids are read when it runs. */
  datatype PrefillChunk = PrefillChunk(request: Request, startPos: nat, numTokens: nat, isFinalChunk: bool)

  /** The local variables of schedule(): what is left, what is promised, what is chosen. */
  datatype Plan = Plan(budget: int, reserved: nat, scheduled: set<nat>, decodes: seq<Request>,
    chunks: seq<PrefillChunk>)

  function SliceOf(c: PrefillChunk): Slice { Slice(c.request.id, c.startPos, c.numTokens, c.isFinalChunk) }

  function Slices(cs: seq<PrefillChunk>): (ss: seq<Slice>)
    ensures |ss| == |cs| && forall i :: 0 <= i < |cs| ==> ss[i] == SliceOf(cs[i])
  {
    seq(|cs|, i requires 0 <= i < |cs| => SliceOf(cs[i]))
  }

  function IdsOf(q: seq<Request>): (ids: seq<nat>)
    ensures |ids| == |q| && forall i :: 0 <= i < |q| ==> ids[i] == q[i].id
  {
    seq(|q|, i requires 0 <= i < |q| => q[i].id)
  }

  function WorkOf(p: Plan, e: State): Work {
    Work(e, p.budget, p.reserved, p.scheduled, IdsOf(p.decodes), Slices(p.chunks))
  }

  /** The plan names objects the scheduler knows by their ids. */
  ghost predicate Known(own: Owner, p: Plan) {
    && (forall r :: r in p.decodes ==> r.id in own.byId && own.byId[r.id] == r)
    && (forall c :: c in p.chunks ==> c.request.id in own.byId && own.byId[c.request.id] == c.request)
  }

  function AddDecode(p: Plan, r: Request, needed: nat): Plan {
    p.(reserved := p.reserved + needed, scheduled := p.scheduled + {r.id}, decodes := p.decodes + [r], budget :=
      p.budget - 1)
  }

  function AddChunk(p: Plan, c: PrefillChunk, needed: nat): Plan {
    p.(reserved := p.reserved + needed, scheduled := p.scheduled + {c.request.id}, chunks := p.chunks + [c],
       budget := p.budget - c.numTokens)
  }

  lemma AddDecodeIs(own: Owner, p: Plan, e: State, r: Request, needed: nat)
    ensures WorkOf(AddDecode(p, r, needed), e) == TakeDecode(WorkOf(p, e), r.id, needed)
    ensures Known(own, p) && r.id in own.byId && own.byId[r.id] == r ==> Known(own, AddDecode(p, r, needed))
  {
    assert IdsOf(p.decodes + [r]) == IdsOf(p.decodes) + [r.id];
  }

  lemma AddChunkIs(cfg: Config, own: Owner, p: Plan, e: State, rec: Req, c: PrefillChunk, needed: nat)
    requires cfg.bs > 0 && needed == Need(cfg, rec, c.startPos + c.numTokens)
    ensures WorkOf(AddChunk(p, c, needed), e) == TakeChunk(cfg, WorkOf(p, e), rec, SliceOf(c))
    ensures Known(own, p) && c.request.id in own.byId && own.byId[c.request.id] == c.request ==>
      Known(own, AddChunk(p, c, needed))
  {
    assert Slices(p.chunks + [c]) == Slices(p.chunks) + [SliceOf(c)];
  }

  lemma WorkIs(p: Plan, e: State)
    ensures var w := WorkOf(p, e);
      w.st == e && w.budget == p.budget && w.reserved == p.reserved && w.scheduled == p.scheduled
    ensures forall e' :: WorkOf(p, e).(st := e') == WorkOf(p, e')
  {
  }

  lemma WorkState(e: State)
    ensures forall p :: WorkOf(p, e).st == e
  {
  }

  lemma KnownStays(own: Owner, own': Owner, p: Plan)
    requires own'.byId == own.byId
    ensures Known(own, p) <==> Known(own', p)
  {
  }

  lemma PlanEmpty(p: Plan, e: State)
    ensures Empty(WorkOf(p, e)) <==> p.decodes == [] && p.chunks == []
  {
  }

  /** The head of the line is decoded whatever the budget. */
  function Forced(p: Plan, r: Request): Plan {
    p.(scheduled := p.scheduled + {r.id}, decodes := p.decodes + [r])
  }

  lemma ForcedIs(own: Owner, p: Plan, e: State, r: Request)
    ensures var w := WorkOf(p, e);
      WorkOf(Forced(p, r), e) == w.(scheduled := w.scheduled + {r.id}, decodes := w.decodes + [r.id])
    ensures Known(own, p) && r.id in own.byId && own.byId[r.id] == r ==> Known(own, Forced(p, r))
  {
    assert IdsOf(p.decodes + [r]) == IdsOf(p.decodes) + [r.id];
  }

  lemma StartPlan(cfg: Config, own: Owner, e: State)
    ensures WorkOf(Plan(cfg.budget, 0, {}, [], []), e) == Work(e, cfg.budget, 0, {}, [], [])
    ensures Known(own, Plan(cfg.budget, 0, {}, [], []))
  {
    assert IdsOf([]) == [] && Slices([]) == [];
  }

  /** A new request changes nothing for the others. */
  lemma CoupledJoin(own: Owner, own': Owner, q: seq<Request>, rs: seq<Req>, request: Request)
    requires own' == Owner(own.cache, own.repr + {request}, own.byId[request.id := request])
    requires |q| == |rs| && forall i :: 0 <= i < |q| ==> Holds(own, q[i], rs[i])
    requires forall r :: r in q ==> r.id < request.id
    ensures Coupled(own', q, rs)
  {
    hide Views;
    forall i | 0 <= i < |q|
      ensures Holds(own', q[i], rs[i])
    {
      assert q[i] in q;
    }
  }

  lemma NewRequestIs(own: Owner, r: Request, rec: Req)
    requires r in own.repr && r.id in own.byId && own.byId[r.id] == r && r.kv == null
    requires r.Value() == Req(r.id, r.prompt, r.maxTokens, r.ignoreEos, r.status, [], None, 0).(status := Waiting)
    requires rec == NewRequest(r.id, r.prompt, r.maxTokens, r.ignoreEos)
    ensures Holds(own, r, rec)
  {
  }

  lemma SafeNextId(cfg: Config, m: Model, e: State)
    requires Safe(cfg, m, e)
    ensures forall i :: 0 <= i < |e.running| ==> e.running[i].id < e.nextId
    ensures forall i :: 0 <= i < |e.waiting| ==> e.waiting[i].id < e.nextId
  {
    hide MemoryOk, ShapesOk, OwnershipOk, ViewsOk, NodesOk, OutputsOk, Distinct, Queued;
    forall i | 0 <= i < |e.running|
      ensures e.running[i].id < e.nextId
    {
      InQueue(e, e.running[i]);
    }
    forall i | 0 <= i < |e.waiting|
      ensures e.waiting[i].id < e.nextId
    {
      InQueue(e, e.waiting[i]);
    }
  }

  /** The state without its k-th queued request. */
  function Departed(e: State, k: nat, final: Req): State
    requires k < |Queued(e)|
  {
    var e' := e.(pool := FreeMany(e.pool, Queued(e)[k].Table()), done := e.done + [final]);
    if k < |e.running| then e'.(running := Except(e.running, k))
    else e'.(waiting := Except(e.waiting, k - |e.running|))
  }

  lemma DepartedIs(e: State, k: nat, final: Req)
    requires k < |Queued(e)|
    ensures var e' := Departed(e, k, final);
      && e'.pool == FreeMany(e.pool, Queued(e)[k].Table()) && e'.mem == e.mem && e'.tree == e.tree
      && e'.done == e.done + [final] && e'.nextId == e.nextId
    ensures k < |e.running| ==>
      Departed(e, k, final).running == Except(e.running, k) && Departed(e, k, final).waiting == e.waiting
    ensures k >= |e.running| ==>
      && Departed(e, k, final).running == e.running && k - |e.running| < |e.waiting|
      && Departed(e, k, final).waiting == Except(e.waiting, k - |e.running|)
      && |Departed(e, k, final).waiting| == |e.waiting| - 1
  {
  }

  lemma QueuedSizes(e: State)
    ensures |Queued(e)| == |e.running| + |e.waiting|
    ensures forall i :: 0 <= i < |e.running| ==> Queued(e)[i] == e.running[i] && e.running[i] in Queued(e)
    ensures forall i :: 0 <= i < |e.waiting| ==> Queued(e)[|e.running| + i] == e.waiting[i] && e.waiting[i] in Queued(e)
  {
    assert forall i :: 0 <= i < |Queued(e)| ==> Queued(e)[i] in Queued(e);
  }

  /** The first request with an id, or the length of the queue. */
  function Position(q: seq<Request>, id: nat): (i: nat)
    ensures i <= |q| && (i < |q| ==> q[i].id == id)
  {
    if q == [] then 0 else if q[0].id == id then 0 else 1 + Position(q[1..], id)
  }

  lemma {:induction false} PositionIs(own: Owner, q: seq<Request>, rs: seq<Req>, id: nat)
    requires Coupled(own, q, rs)
    ensures Position(q, id) == Find(rs, id)
    decreases |q|
  {
    hide Views;
    if q != [] {
      CoupledIds(own, q, rs);
      PositionIs(own, q[1..], rs[1..], id);
    }
  }

  lemma AbortWaiting(e: State, id: nat, i: nat)
    requires Find(e.waiting, id) == i < |e.waiting|
    ensures |e.running| + i < |Queued(e)| && Queued(e)[|e.running| + i] == e.waiting[i]
    ensures Serving.Abort(e, id) == Departed(e, |e.running| + i, e.waiting[i].(kv := None, status := Aborted))
    ensures var d := Departed(e, |e.running| + i, e.waiting[i].(kv := None, status := Aborted)).done;
      |d| > 0 && d[|d| - 1] == e.waiting[i].(kv := None, status := Aborted)
  {
    hide FreeMany;
  }

  lemma AbortRunning(e: State, id: nat, i: nat)
    requires Find(e.waiting, id) == |e.waiting| && Find(e.running, id) == i < |e.running|
    ensures i < |Queued(e)| && Queued(e)[i] == e.running[i]
    ensures Serving.Abort(e, id) == Departed(e, i, e.running[i].(kv := None, status := Aborted))
    ensures var d := Departed(e, i, e.running[i].(kv := None, status := Aborted)).done;
      |d| > 0 && d[|d| - 1] == e.running[i].(kv := None, status := Aborted)
  {
    hide FreeMany;
  }

  lemma AbortNobody(e: State, id: nat)
    requires Find(e.waiting, id) == |e.waiting| && Find(e.running, id) == |e.running|
    ensures Serving.Abort(e, id) == e
  {
  }

  lemma CoupledGrows(own: Owner, own': Owner, q: seq<Request>, rs: seq<Req>)
    requires own' == own.(repr := own'.repr) && own.repr <= own'.repr
    requires |q| == |rs| && forall i :: 0 <= i < |q| ==> Holds(own, q[i], rs[i])
    ensures Coupled(own', q, rs)
  {
  }

  lemma InsertIsEvict(bs: nat, c: Cache, toks: seq<Token>, blocks: seq<nat>, cap: nat)
    requires bs > 0
    ensures Insert(bs, c, toks, blocks, cap) == EvictTo(Register(bs, c, toks, blocks), cap)
  {
    hide EvictTo, Register;
  }

  /** What a finished request publishes is its own, live and not yet cached. */
  lemma CommitIs(cfg: Config, m: Model, e: State, i: nat)
    requires cfg.bs > 0 && Safe(cfg, m, e) && i < |e.running| && e.running[i].status == Finished
    ensures var r := e.running[i];
      var blocks := FullBlocks(cfg, r);
      && (!cfg.caching || r.kv.None? ==> Serving.CommitPrefix(cfg, e, r) == e)
      && (cfg.caching && r.kv.Some? ==>
            var c := Insert(cfg.bs, CacheOf(e), r.AllTokens(), blocks, cfg.maxCached);
            Serving.CommitPrefix(cfg, e, r) == e.(tree := c.tree, pool := c.pool))
      && NoRepeats(blocks) && AllIncref(e.pool, blocks)
      && Unregistered(e.tree.nodes, InsertPath(cfg.bs, r.AllTokens(), blocks), blocks, 0)
  {
    var r := e.running[i];
    CommitReady(cfg, m, e, i);
    hide Insert, FullBlocks, Unregistered, InsertPath, AllIncref;
  }

  lemma CommitReady(cfg: Config, m: Model, e: State, i: nat)
    requires cfg.bs > 0 && Safe(cfg, m, e) && i < |e.running| && e.running[i].status == Finished
    ensures var r := e.running[i];
      var blocks := FullBlocks(cfg, r);
      && NoRepeats(blocks) && AllIncref(e.pool, blocks)
      && Unregistered(e.tree.nodes, InsertPath(cfg.bs, r.AllTokens(), blocks), blocks, 0)
  {
    var r := e.running[i];
    SafeRunning(cfg, m, e, i);
    SafeOwner(cfg, m, e, i);
    hide Safe, TreeOk, PrivateOk, AdoptedOk, Unregistered, Counts;
    PublishedUnregistered(cfg, e, r);
    PublishedDistinct(cfg, e, r);
    FullBlocksLive(cfg, e, r);
  }

  lemma SafeOwner(cfg: Config, m: Model, e: State, i: nat)
    requires Safe(cfg, m, e) && i < |e.running|
    ensures e.running[i] in Queued(e) && PrivateOk(e, e.running[i]) && AdoptedOk(cfg, e, e.running[i])
    ensures Counts(e.pool, Held(e)) && TreeOk(e.tree) && OneBlockEach(e.tree.nodes)
  {
    hide ShapesOk, ViewsOk, NodesOk, OutputsOk, IdsOk, PrivateOk, AdoptedOk, Counts, Shaped, FreeListOk;
    InQueue(e, e.running[i]);
  }

  lemma FullBlocksLive(cfg: Config, e: State, r: Req)
    requires cfg.bs > 0 && RunningOk(cfg, r) && r.status == Finished && r in Queued(e) && Counts(e.pool, Held(e))
    ensures AllIncref(e.pool, FullBlocks(cfg, r))
  {
    FullBlocksHeld(cfg, e, r);
    hide FullBlocks, RunningOk, Tables, NodeBlocks;
    forall b | b in FullBlocks(cfg, r)
      ensures Live(e.pool, b)
    {
      assert b in Held(e);
    }
  }

  lemma FullBlocksAre(cfg: Config, s: SequenceKV, r: Req)
    requires cfg.bs > 0 && s.cache.blockSize == cfg.bs && r.kv.Some?
    requires s.blockTable == r.Table() && s.length == r.kv.value.length
    ensures s.FullBlocks() == FullBlocks(cfg, r)
  {
  }

  lemma RetireIs(cfg: Config, m: Model, e: State, i: nat)
    requires cfg.bs > 0 && i < |e.running| && Leaving(cfg, m, Serving.CommitPrefix(cfg, e, e.running[i]), i)
    requires Serving.CommitPrefix(cfg, e, e.running[i]).running == e.running
    ensures var e1 := Serving.CommitPrefix(cfg, e, e.running[i]);
      && i < |Queued(e1)| && Queued(e1)[i] == e.running[i] && Distinct(Queued(e1))
      && AllLive(e1.pool, e.running[i].Table())
      && Serving.Retire(cfg, e, i) == Departed(e1, i, e.running[i].(kv := None))
  {
    var e1 := Serving.CommitPrefix(cfg, e, e.running[i]);
    hide Serving.CommitPrefix, ShapesOk, ViewsOk, NodesOk, OutputsOk, PrivateOk, AdoptedOk, TreeOk, Shaped,
      FreeListOk, AllLive, Counts, FreeMany;
    TablesMember(Queued(e1), e.running[i]);
    HeldIsLive(e1.pool, e.running[i].Table(), Held(e1));
  }

  lemma IdsAre(q: seq<Req>)
    ensures |Ids(q)| == |q| && forall i :: 0 <= i < |q| ==> Ids(q)[i] == q[i].id
  {
  }

  lemma RunningHasView(cfg: Config, r: Req)
    requires RunningOk(cfg, r)
    ensures r.kv.Some? && (r.status == Running || r.status == Prefill || r.status == Finished)
  {
  }

  /** The newest request that is not protected. */
  function Newest(q: seq<Request>, protected: set<nat>): Option<nat> {
    if q == [] then None
    else if q[|q| - 1].id !in protected then Some(|q| - 1)
    else Newest(q[..|q| - 1], protected)
  }

  lemma {:induction false} NewestIs(own: Owner, q: seq<Request>, rs: seq<Req>, protected: set<nat>)
    requires Coupled(own, q, rs)
    ensures |q| == |rs| && Newest(q, protected) == NewestUnprotected(rs, protected)
    ensures Newest(q, protected).Some? ==> Newest(q, protected).value < |q|
    decreases |q|
  {
    hide Views;
    if q != [] {
      NewestIs(own, q[..|q| - 1], rs[..|q| - 1], protected);
    }
  }

  class Scheduler {
    const cfg: Config
    const kv: PagedKVCache
    const radix: RadixCache?
    var waiting: seq<Request>
    var running: seq<Request>
    var admitted: nat
    ghost var st: State
    ghost var own: Owner

    /** The block pool and the KV memory. */
    ghost predicate Memory(own: Owner, pool: Pool, mem: seq<seq<Column>>)
      reads kv.allocator, kv.mem
    {
      && own.cache == kv && kv.allocator in own.repr && kv.mem in own.repr
      && kv.allocator.Valid() && kv.Slotted()
      && kv.blockSize == cfg.bs && kv.allocator.numBlocks == cfg.numBlocks
      && pool == kv.allocator.Value() && mem == kv.mem[..]
    }

    /** The prefix cache, when there is one. */
    ghost predicate Prefixes(own: Owner, tree: Tree)
      reads radix, if radix == null then {} else radix.at.Values
    {
      if radix == null then !cfg.caching && tree == EmptyTree
      else
        && radix in own.repr && radix.at.Values <= own.repr
        && cfg.caching && radix.allocator == kv.allocator
        && radix.blockSize == cfg.bs && radix.maxBlocks == Some(cfg.maxCached)
        && radix.IsTree() && tree == Tree(radix.Nodes(), radix.clock, radix.cached)
    }

    /** st is what the objects hold. */
    ghost predicate Valid()
      reads this, kv.allocator, kv.mem, running, waiting, Views(running), Views(waiting)
      reads radix, if radix == null then {} else radix.at.Values
    {
      && Memory(own, st.pool, st.mem) && Prefixes(own, st.tree) && st.nextId == admitted && this !in own.repr
      && Coupled(own, running, st.running) && Coupled(own, waiting, st.waiting)
    }

    lemma ValidIs()
      ensures Valid() <==>
        && Memory(own, st.pool, st.mem) && Prefixes(own, st.tree) && st.nextId == admitted && this !in own.repr
        && Coupled(own, running, st.running) && Coupled(own, waiting, st.waiting)
    {
      hide Memory, Prefixes, Coupled;
    }

    lemma MemoryIs(pool: Pool, mem: seq<seq<Column>>)
      ensures Memory(own, pool, mem) <==>
        && own.cache == kv && kv.allocator in own.repr && kv.mem in own.repr
        && kv.allocator.Valid() && kv.Slotted()
        && kv.blockSize == cfg.bs && kv.allocator.numBlocks == cfg.numBlocks
        && pool == kv.allocator.Value() && mem == kv.mem[..]
      ensures Memory(own, pool, mem) ==> FreeBlocks() == |pool.free| - cfg.watermark
    {
    }

    constructor (cfg: Config, kv: PagedKVCache, radix: RadixCache?)
      requires kv.Valid() && kv.blockSize == cfg.bs && kv.allocator.numBlocks == cfg.numBlocks
      requires radix == null <==> !cfg.caching
      requires radix != null ==>
        && radix.IsTree() && radix.allocator == kv.allocator
        && radix.blockSize == cfg.bs && radix.maxBlocks == Some(cfg.maxCached)
      ensures Valid() && this.cfg == cfg && this.kv == kv && this.radix == radix
      ensures running == [] && waiting == []
      ensures st.pool == kv.allocator.Value() && st.mem == kv.mem[..]
      ensures st.tree == if radix == null then EmptyTree else Tree(radix.Nodes(), radix.clock, radix.cached)
      ensures st.running == [] && st.waiting == [] && st.done == [] && st.nextId == 0
      ensures own.byId == map[] && this !in own.repr
      ensures kv.allocator.Value() == old(kv.allocator.Value()) && kv.allocator.cowCopies == old(kv.allocator.cowCopies)
      ensures kv.mem[..] == old(kv.mem[..]) && (radix != null ==> radix.Value() == old(radix.Value()))
      ensures own.repr == {kv.allocator, kv.mem} + if radix == null then {} else {radix} + radix.at.Values
    {
      this.cfg, this.kv, this.radix := cfg, kv, radix;
      waiting, running, admitted := [], [], 0;
      st := State(kv.allocator.Value(), kv.mem[..],
                  if radix == null then EmptyTree else Tree(radix.Nodes(), radix.clock, radix.cached), [], [], [], 0);
      own := Owner(kv, {kv.allocator, kv.mem} + (if radix == null then {} else {radix} + radix.at.Values), map[]);
    }

    function FreeBlocks(): int
      reads kv.allocator
    {
      |kv.allocator.free| - cfg.watermark
    }

    /** The k-th request of running followed by waiting. */
    ghost predicate Stands(r: Request, k: nat)
      reads this`running, this`waiting
    {
      if k < |running| then running[k] == r else k - |running| < |waiting| && waiting[k - |running|] == r
    }

    /** All queued requests but the k-th hold their records. */
    ghost predicate OthersHold(k: nat)
      reads this`running, this`waiting, this`st, this`own, running, waiting, Views(running), Views(waiting)
    {
      && |running| == |st.running| && |waiting| == |st.waiting|
      && (forall j :: 0 <= j < |running| && j != k ==> Holds(own, running[j], st.running[j]))
      && (forall j :: 0 <= j < |waiting| && j + |running| != k ==> Holds(own, waiting[j], st.waiting[j]))
    }

    /** Before a request changes: who it is, and that it is nobody else. */
    lemma Standing(r: Request, k: nat)
      requires Valid() && Distinct(Queued(st)) && Stands(r, k)
      ensures k < |Queued(st)| && Holds(own, r, Queued(st)[k]) && Queued(st)[k] in Queued(st)
      ensures |running| == |st.running| && |waiting| == |st.waiting| && Queued(st) == st.running + st.waiting
      ensures forall j :: 0 <= j < |running| && j != k ==>
        Holds(own, running[j], st.running[j]) && running[j] != r && (running[j].kv == null || running[j].kv != r.kv)
      ensures forall j :: 0 <= j < |waiting| && j + |running| != k ==>
        Holds(own, waiting[j], st.waiting[j]) && waiting[j] != r && (waiting[j].kv == null || waiting[j].kv != r.kv)
    {
      hide Distinct, Holds, Memory, Prefixes, Views;
      ApartFrom(st, own, running, waiting, k);
    }

    lemma OthersStill(k: nat)
      ensures OthersHold(k) <==>
        && |running| == |st.running| && |waiting| == |st.waiting|
        && (forall j :: 0 <= j < |running| && j != k ==> Holds(own, running[j], st.running[j]))
        && (forall j :: 0 <= j < |waiting| && j + |running| != k ==> Holds(own, waiting[j], st.waiting[j]))
    {
    }

    /** Release the KV of a queued request; on preemption forget its position, too. */
    method Vacate(r: Request, reset: bool, ghost k: nat)
      requires Valid() && Distinct(Queued(st)) && Stands(r, k)
      requires k < |Queued(st)| && AllLive(st.pool, Queued(st)[k].Table())
      modifies own.repr
      ensures OthersHold(k) && Stands(r, k)
      ensures Holds(own, r, if reset then Queued(st)[k].Reset() else Queued(st)[k].(kv := None))
      ensures Memory(own, FreeMany(st.pool, Queued(st)[k].Table()), st.mem) && Prefixes(own, st.tree)
      ensures unchanged(this) && kv.allocator.cowCopies == old(kv.allocator.cowCopies)
    {
      hide *;
      ValidIs();
      Standing(r, k);
      ghost var rec := Queued(st)[k];
      HoldsParts(own, r, rec);
      MemoryIs(st.pool, st.mem);
      NoTable(st.pool, rec);
      if reset {
        var ok := r.ResetForRecompute();
        HoldsIs(own, r, rec.Reset());
      } else {
        var ok := r.ReleaseKv();
        HoldsIs(own, r, rec.(kv := None));
      }
      OthersStill(k);
      MemoryIs(FreeMany(st.pool, rec.Table()), st.mem);
    }

    /** Preemption: release the request's KV and put it at the front of the queue. */
    method Preempt(victim: Request, i: nat, ghost m: Model)
      requires Valid() && Safe(cfg, m, st) && i < |running| == |st.running| && running[i] == victim
      modifies this`running, this`waiting, this`st, own.repr
      ensures Valid() && st == Scheduling.Preempt(old(st), i)
      ensures running == Except(old(running), i) && waiting == [victim] + old(waiting) && |running| < |old(running)|
      ensures victim.output == old(victim.output) && victim.Value().AllTokens() == old(victim.Value().AllTokens())
      ensures victim.kv == null && victim.computed == 0 && victim.status == Preempted
      ensures kv.allocator.cowCopies == old(kv.allocator.cowCopies)
    {
      hide *;
      ghost var rs, ws := st.running, st.waiting;
      ValidIs();
      StandsAt(i);
      SafeIds(cfg, m, st);
      Standing(victim, i);
      PreemptIs(st, i);
      HoldsParts(own, victim, rs[i]);
      TableIsLive(cfg, m, st, rs[i]);
      Vacate(victim, true, i);
      OthersStill(i);
      running := Except(running, i);
      waiting := [victim] + waiting;
      st := Scheduling.Preempt(st, i);
      CoupledExcept(own, old(running), rs, i);
      CoupledAll(own, old(waiting), ws);
      CoupledOne(own, victim, rs[i].Reset());
      HoldsParts(own, victim, rs[i].Reset());
      ResetKeeps(rs[i]);
      CoupledConcat(own, [victim], [rs[i].Reset()], old(waiting), ws);
      ValidIs();
    }

    lemma StandsAt(k: nat)
      ensures k < |running| ==> Stands(running[k], k)
      ensures |running| <= k < |running| + |waiting| ==> Stands(waiting[k - |running|], k)
    {
    }

    /** Give the head of the queue an empty view of the cache. */
    method NewView(request: Request)
      requires Valid() && Distinct(Queued(st)) && waiting != [] && waiting[0] == request && request.kv == null
      requires st.waiting != []
      modifies this`st, this`own, own.repr
      ensures Valid() && st == WithView(old(st)) && running == old(running) && waiting == old(waiting)
      ensures own == old(own).(repr := own.repr) && old(own.repr) <= own.repr && fresh(own.repr - old(own.repr))
      ensures request.kv != null && kv.allocator.cowCopies == old(kv.allocator.cowCopies)
    {
      hide *;
      ghost var k, rs, ws := |running|, st.running, st.waiting;
      ValidIs();
      MemoryIs(st.pool, st.mem);
      PrefixesIs(st.tree);
      StandsAt(k);
      WithViewIs(st);
      CoupledIds(own, running, rs);
      Standing(request, k);
      HoldsParts(own, request, ws[0]);
      var s := kv.NewSequence(request.id);
      request.kv := s;
      OthersStill(k);
      own := own.(repr := own.repr + {s});
      st := WithView(st);
      HoldMore(old(own), own, running, rs, waiting, ws);
      NewViewHolds(own, request, ws[0]);
      CoupledHead(own, waiting, ws, ws[0].(kv := Some(SeqKV([], 0, 0))));
      CoupledAll(own, running, rs);
      MemoryIs(st.pool, st.mem);
      PrefixesIs(st.tree);
      ValidIs();
    }

    /** Look a prompt up in the prefix cache. */
    method Lookup(prompt: seq<Token>) returns (blocks: seq<nat>, matched: nat)
      requires Valid() && TreeOk(st.tree) && cfg.bs > 0 && radix != null
      modifies this`st, own.repr
      ensures Valid() && st == old(st).(tree := MatchTree(cfg.bs, old(st).tree, prompt))
      ensures running == old(running) && waiting == old(waiting)
      ensures blocks == MatchBlocks(cfg.bs, old(st).tree, prompt) && matched == |blocks| * cfg.bs
      ensures forall r :: r in waiting ==> r.kv == old(r.kv)
      ensures kv.allocator.cowCopies == old(kv.allocator.cowCopies)
    {
      hide *;
      ValidIs();
      MemoryIs(st.pool, st.mem);
      PrefixesIs(st.tree);
      RadixReady();
      CoupledAll(own, running, st.running);
      CoupledAll(own, waiting, st.waiting);
      radix.ValidParts();
      blocks, matched := radix.Match(prompt);
      radix.ValidParts();
      st := st.(tree := MatchTree(cfg.bs, st.tree, prompt));
      CoupledAll(own, running, st.running);
      CoupledAll(own, waiting, st.waiting);
      MemoryIs(st.pool, st.mem);
      PrefixesIs(st.tree);
      ValidIs();
    }

    /** Share the blocks of a cached prefix with the head of the queue. */
    method Adopt(request: Request, blocks: seq<nat>, matched: nat)
      requires Valid() && Distinct(Queued(st)) && cfg.bs > 0
      requires waiting != [] && waiting[0] == request && request.kv != null && st.waiting != []
      requires st.waiting[0].kv == Some(SeqKV([], 0, 0)) && AllIncref(st.pool, blocks)
      requires matched == |blocks| * cfg.bs && matched != 0
      modifies this`st, own.repr
      ensures Valid() && running == old(running) && waiting == old(waiting) && request.kv == old(request.kv)
      ensures st == old(st).(pool := IncrefMany(old(st).pool, blocks),
                             waiting := [AdoptedReq(cfg, old(st).waiting[0], blocks)] + old(st).waiting[1..])
      ensures kv.allocator.cowCopies == old(kv.allocator.cowCopies)
    {
      hide *;
      ghost var k, rs, ws := |running|, st.running, st.waiting;
      ValidIs();
      MemoryIs(st.pool, st.mem);
      StandsAt(k);
      CoupledIds(own, running, rs);
      Standing(request, k);
      QueuedAtHead(st);
      ShareBlocks(request, blocks, matched, k);
      OthersStill(k);
      StandsIs(request, k);
      st := st.(pool := IncrefMany(st.pool, blocks), waiting := [AdoptedReq(cfg, ws[0], blocks)] + ws[1..]);
      CoupledHead(own, waiting, ws, AdoptedReq(cfg, ws[0], blocks));
      CoupledAll(own, running, rs);
      ValidIs();
    }

    /** One more reference on each block, and the blocks into the request's view. */
    method ShareBlocks(request: Request, blocks: seq<nat>, matched: nat, ghost k: nat)
      requires Valid() && Distinct(Queued(st)) && cfg.bs > 0 && Stands(request, k) && k < |Queued(st)|
      requires request.kv != null
      requires Queued(st)[k].kv == Some(SeqKV([], 0, 0)) && AllIncref(st.pool, blocks)
      requires matched == |blocks| * cfg.bs && matched != 0
      modifies own.repr
      ensures OthersHold(k) && Stands(request, k) && Holds(own, request, AdoptedReq(cfg, Queued(st)[k], blocks))
      ensures Memory(own, IncrefMany(st.pool, blocks), st.mem) && Prefixes(own, st.tree)
      ensures unchanged(this) && request.kv == old(request.kv) && kv.allocator.cowCopies == old(kv.allocator.cowCopies)
    {
      hide *;
      ghost var rec := Queued(st)[k];
      ValidIs();
      Standing(request, k);
      MemoryIs(st.pool, st.mem);
      HoldsParts(own, request, rec);
      EmptyView(rec);
      var ok := request.kv.AdoptPrefix(blocks, matched);
      request.computed := matched;
      AdoptedHolds(cfg, own, request, rec, blocks);
      OthersStill(k);
      MemoryIs(IncrefMany(st.pool, blocks), st.mem);
    }

    /** Adopt the longest cached prefix of the head's prompt. */
    method TryPrefixCache(request: Request)
      requires Valid() && Distinct(Queued(st)) && TreeOk(st.tree) && cfg.bs > 0
      requires waiting != [] && waiting[0] == request && request.kv != null && st.waiting != []
      requires st.waiting[0].kv == Some(SeqKV([], 0, 0)) && st.waiting[0].prompt == request.prompt
      requires cfg.caching ==> AllIncref(st.pool, MatchBlocks(cfg.bs, st.tree, request.prompt))
      modifies this`st, own.repr
      ensures Valid() && st == Adopted(cfg, old(st)) && running == old(running) && waiting == old(waiting)
      ensures request.kv != null && kv.allocator.cowCopies == old(kv.allocator.cowCopies)
    {
      hide *;
      ValidIs();
      RadixReady();
      if radix == null {
        NotAdopted(cfg, st);
        return;
      }
      AdoptedIs(cfg, st);
      SameQueued(st, st.(tree := MatchTree(cfg.bs, st.tree, request.prompt)));
      var blocks, matched := Lookup(request.prompt);
      if matched == 0 {
        NoBlocks(|blocks|, cfg.bs);
        return;
      }
      Adopt(request, blocks, matched);
    }

    /**
     Admission test for the head of the queue: a fresh view and a cache lookup if it has
     none, then one block of headroom. On success the request is in its prefill.
     */
    method Admit(request: Request, available: int, ghost m: Model) returns (ok: bool)
      requires Valid() && Safe(cfg, m, st) && cfg.bs > 0
      requires waiting != [] && waiting[0] == request && st.waiting != []
      modifies this`st, this`own, own.repr
      ensures Valid() && running == old(running) && waiting == old(waiting)
      ensures own == old(own).(repr := own.repr) && old(own.repr) <= own.repr && fresh(own.repr - old(own.repr))
      ensures var e := Scheduling.Attach(cfg, old(st));
        && e.waiting != []
        && ok == (Need(cfg, e.waiting[0], e.waiting[0].computed + 1) <= available)
        && st == if ok then e.(waiting := [e.waiting[0].(status := Prefill)] + e.waiting[1..]) else e
      ensures kv.allocator.cowCopies == old(kv.allocator.cowCopies)
    {
      hide *;
      ghost var e0 := st;
      AttachIsAdopted(cfg, st);
      AttachSafe(cfg, m, st);
      SafeIds(cfg, m, st);
      SafeTree(cfg, m, st);
      HeadHolds(request);
      if request.kv == null {
        MatchedLive(cfg, m, st);
        WithViewIs(st);
        WithViewDistinct(st);
        NewView(request);
        TryPrefixCache(request);
      }
      SafeIds(cfg, m, st);
      HeadHolds(request);
      NeedIs(cfg, st.waiting[0]);
      NeedOf(request.kv, request.computed + 1);
      if request.kv.BlocksNeeded(request.computed + 1) > available {
        return false;
      }
      SetPrefill(request);
      return true;
    }

    lemma HeadHolds(request: Request)
      requires Valid() && waiting != [] && waiting[0] == request
      ensures st.waiting != [] && Holds(own, request, st.waiting[0])
      ensures request.kv == null <==> st.waiting[0].kv.None?
      ensures request.kv != null ==> request.kv.cache == kv && request.kv.blockTable == st.waiting[0].Table()
      ensures request.computed == st.waiting[0].computed && request.prompt == st.waiting[0].prompt
      ensures kv.blockSize == cfg.bs && this !in own.repr && request in own.repr
    {
      hide Prefixes, Views;
    }

    /** The head enters its prefill. */
    method SetPrefill(request: Request)
      requires Valid() && Distinct(Queued(st)) && waiting != [] && waiting[0] == request && st.waiting != []
      modifies this`st, request`status
      ensures Valid() && running == old(running) && waiting == old(waiting)
      ensures st == old(st).(waiting := [old(st).waiting[0].(status := Prefill)] + old(st).waiting[1..])
    {
      hide *;
      ghost var k, rs, ws := |running|, st.running, st.waiting;
      ValidIs();
      MemoryIs(st.pool, st.mem);
      PrefixesIs(st.tree);
      StandsAt(k);
      CoupledIds(own, running, rs);
      Standing(request, k);
      QueuedAtHead(st);
      HoldsParts(own, request, ws[0]);
      request.SetStatus(Prefill);
      st := st.(waiting := [ws[0].(status := Prefill)] + ws[1..]);
      StatusHolds(own, request, ws[0], Prefill);
      CoupledHead(own, waiting, ws, ws[0].(status := Prefill));
      CoupledAll(own, running, rs);
      MemoryIs(st.pool, st.mem);
      PrefixesIs(st.tree);
      ValidIs();
    }

    /** The head of the queue starts running. */
    method MoveHead()
      requires Valid() && waiting != [] && st.waiting != []
      modifies this`running, this`waiting, this`st
      ensures Valid() && running == old(running) + [old(waiting)[0]] && waiting == old(waiting)[1..]
      ensures st == old(st).(running := old(st).running + [old(st).waiting[0]], waiting := old(st).waiting[1..])
    {
      hide *;
      ghost var rs, ws := st.running, st.waiting;
      ValidIs();
      MemoryIs(st.pool, st.mem);
      PrefixesIs(st.tree);
      CoupledAll(own, running, rs);
      CoupledAll(own, waiting, ws);
      running := running + [waiting[0]];
      waiting := waiting[1..];
      st := st.(running := rs + [ws[0]], waiting := ws[1..]);
      CoupledAll(own, running, st.running);
      CoupledAll(own, waiting, st.waiting);
      MemoryIs(st.pool, st.mem);
      PrefixesIs(st.tree);
      ValidIs();
    }

    /** Undo the admission of the last running request. */
    method RollBack(request: Request, ghost m: Model)
      requires Valid() && Safe(cfg, m, st) && running != [] && running[|running| - 1] == request && st.running != []
      modifies this`running, this`waiting, this`st, own.repr
      ensures Valid() && st == Scheduling.RollBack(old(st))
      ensures kv.allocator.cowCopies == old(kv.allocator.cowCopies)
    {
      hide *;
      var k := |running| - 1;
      ghost var rs, ws := st.running, st.waiting;
      ValidIs();
      StandsAt(k);
      SafeIds(cfg, m, st);
      Standing(request, k);
      RollBackIs(st);
      TableIsLive(cfg, m, st, rs[k]);
      Vacate(request, false, k);
      OthersStill(k);
      HoldsParts(own, request, rs[k].(kv := None));
      request.SetStatus(Waiting);
      running := Except(running, k);
      waiting := [request] + waiting;
      st := Scheduling.RollBack(st);
      StatusHolds(own, request, rs[k].(kv := None), Waiting);
      CoupledExcept(own, old(running), rs, k);
      CoupledAll(own, old(waiting), ws);
      CoupledOne(own, request, RolledBack(rs[k]));
      CoupledConcat(own, [request], [RolledBack(rs[k])], old(waiting), ws);
      PrefixesIs(st.tree);
      ValidIs();
    }

    /** The next slice of a prompt that budget and memory allow. */
    function MakeChunk(request: Request, budget: int, available: int): Option<PrefillChunk>
      requires cfg.bs > 0 && request.kv != null && request.kv.cache.blockSize == cfg.bs
      reads request, request.kv
    {
      var remaining := request.Value().RemainingPrefill();
      var take := if cfg.chunked && budget < remaining then budget else remaining;
      if remaining <= 0 || (!cfg.chunked && remaining > budget) || take <= 0 then None
      else
        var start := request.computed;
        var capacity := request.kv.Capacity() + (if available > 0 then available else 0) * cfg.bs;
        var fitting := if take < capacity - start then take else capacity - start;
        var size := if request.kv.BlocksNeeded(start + take) > available then fitting else take;
        if size <= 0 then None
        else Some(PrefillChunk(request, start, size, start + size >= request.Value().PrefillTarget()))
    }

    lemma MakeChunkIs(request: Request, budget: int, available: int, rec: Req)
      requires cfg.bs > 0 && own.cache == kv && kv.blockSize == cfg.bs
      requires Holds(own, request, rec) && request.kv != null && budget > 0
      ensures var chunk, c := MakeChunk(request, budget, available), Scheduling.MakeChunk(cfg, rec, budget, available);
        && (chunk.Some? <==> c.Some?)
        && (chunk.Some? ==> SliceOf(chunk.value) == c.value && chunk.value.request == request)
    {
      HoldsParts(own, request, rec);
      SpreadCapacity(|request.kv.blockTable|, if available > 0 then available else 0, cfg.bs);
    }

    // ---- schedule(), phase by phase

    function Available(p: Plan): int
      reads kv.allocator
    {
      FreeBlocks() - p.reserved
    }

    lemma AvailableIs(p: Plan)
      requires Valid()
      ensures Available(p) == Scheduling.Available(cfg, WorkOf(p, st))
    {
      hide Prefixes, Coupled, IdsOf, Slices;
    }

    /** Where a request of the batch is now. */
    lemma Locate(request: Request, m: Model)
      requires Valid() && Safe(cfg, m, st) && Settled(st) && Tracked(st, request.id)
      requires request.id in own.byId && own.byId[request.id] == request
      ensures |running| == |st.running| && own.cache == kv && kv.blockSize == cfg.bs && this !in own.repr
      ensures var i := Find(st.running, request.id);
        if i < |st.running|
        then running[i] == request && Holds(own, request, st.running[i]) && request.status != Preempted
          && request.kv != null
        else request.status == Preempted
    {
      hide Safe, Prefixes, Views;
      var i := Find(st.running, request.id);
      if i < |st.running| {
        HoldsParts(own, running[i], st.running[i]);
        DoneIsDecoding(cfg, m, st, st.running[i]);
        RunningHasView(cfg, st.running[i]);
      } else {
        var r :| r in st.waiting && r.id == request.id && r.status == Preempted;
        var j :| 0 <= j < |st.waiting| && st.waiting[j] == r;
        HoldsParts(own, waiting[j], r);
      }
    }

    lemma BatchTracked(m: Model)
      requires Valid() && Safe(cfg, m, st)
      ensures |running| == |st.running|
      ensures forall j :: 0 <= j < |running| ==>
        Tracked(st, running[j].id) && running[j].id in own.byId && own.byId[running[j].id] == running[j]
          && running[j].id == st.running[j].id
    {
      hide Safe, Prefixes, Memory, Views;
      forall j | 0 <= j < |running|
        ensures Tracked(st, running[j].id) && running[j].id in own.byId && own.byId[running[j].id] == running[j]
        ensures running[j].id == st.running[j].id
      {
        HoldsParts(own, running[j], st.running[j]);
      }
    }

    /** One running request: a decode if its next block is there or can be made. */
    method DecodeOne(request: Request, p: Plan, ghost m: Model) returns (plan: Plan)
      requires Valid() && cfg.bs > 0 && Planning(cfg, m, WorkOf(p, st)) && Known(own, p)
      requires Tracked(st, request.id) && request.id in own.byId && own.byId[request.id] == request
      modifies this`running, this`waiting, this`st, own.repr
      ensures Valid() && Known(own, plan)
      ensures WorkOf(plan, st) == Scheduling.DecodeOne(cfg, WorkOf(p, old(st)), request.id)
      ensures kv.allocator.cowCopies == old(kv.allocator.cowCopies)
    {
      hide *;
      ghost var w := WorkOf(p, st);
      WorkIs(p, st);
      PlanningIs(cfg, m, w);
      Locate(request, m);
      DecodeTurn(cfg, m, w, request.id);
      ghost var i := Find(st.running, request.id);
      if request.status == Preempted {
        return p;
      }
      ghost var rec := st.running[i];
      HoldsParts(own, request, rec);
      if !request.Value().PrefillDone() {
        return p;
      }
      var needed := request.kv.BlocksNeeded(request.computed + 1);
      NeedOf(request.kv, request.computed + 1);
      NeedIs(cfg, rec);
      AvailableIs(p);
      AddDecodeIs(own, p, st, request, needed);
      if needed > Available(p) {
        MakeRoom(needed + p.reserved, p.scheduled + {request.id}, m);
        WorkIs(p, st);
        AvailableIs(p);
        AddDecodeIs(own, p, st, request, needed);
        if needed > Available(p) {
          return p;
        }
      }
      return AddDecode(p, request, needed);
    }

    /** Phase 1: every request that was running when the step began. */
    method DecodePhase(p: Plan, ghost m: Model) returns (plan: Plan)
      requires Valid() && cfg.bs > 0 && Planning(cfg, m, WorkOf(p, st)) && Known(own, p)
      requires p.scheduled == {}
      modifies this`running, this`waiting, this`st, own.repr
      ensures Valid() && Known(own, plan)
      ensures WorkOf(plan, st) == Scheduling.DecodePhase(cfg, WorkOf(p, old(st)), Ids(old(st).running))
      ensures kv.allocator.cowCopies == old(kv.allocator.cowCopies)
    {
      hide *;
      plan := p;
      var batch := running;
      ValidIs();
      ghost var e, w0, ids := st, WorkOf(p, st), Ids(st.running);
      WorkIs(p, st);
      PlanningIs(cfg, m, w0);
      PlanningDistinct(cfg, m, w0);
      IdsDistinct(st);
      BatchTracked(m);
      IdsAre(st.running);
      assert ids[0..] == ids;
      for k := 0 to |batch|
        invariant Valid() && Planning(cfg, m, WorkOf(plan, st)) && Known(own, plan) && |batch| == |ids|
        invariant forall j :: 0 <= j < |batch| ==>
          Tracked(st, batch[j].id) && batch[j].id in own.byId && own.byId[batch[j].id] == batch[j]
            && batch[j].id == ids[j]
        invariant forall j :: k <= j < |batch| ==> batch[j].id !in plan.scheduled
        invariant Scheduling.DecodePhase(cfg, w0, ids) == Scheduling.DecodePhase(cfg, WorkOf(plan, st), ids[k..])
        invariant kv.allocator.cowCopies == old(kv.allocator.cowCopies)
      {
        ghost var w := WorkOf(plan, st);
        WorkIs(plan, st);
        DecodesStop(cfg, w, ids[k..]);
        if plan.budget <= 0 {
          return;
        }
        assert ids[k..][0] == ids[k] && ids[k..][1..] == ids[k + 1..];
        DecodeOneKeeps(cfg, m, w, ids[k]);
        ScheduledGrows(ids, k, w.scheduled, Scheduling.DecodeOne(cfg, w, ids[k]).scheduled);
        DecodesTrack(cfg, w, ids[k]);
        PlanningIs(cfg, m, w);
        plan := DecodeOne(batch[k], plan, m);
        WorkIs(plan, st);
      }
      assert ids[|batch|..] == [];
      DecodesStop(cfg, WorkOf(plan, st), []);
    }

    /** The request at an index of the running list, between steps. */
    lemma RunningAt(i: nat, m: Model)
      requires Valid() && Safe(cfg, m, st) && Settled(st) && i < |running|
      ensures |running| == |st.running| && |waiting| == |st.waiting| && own.cache == kv && kv.blockSize == cfg.bs
      ensures this !in own.repr
      ensures Holds(own, running[i], st.running[i]) && running[i].kv != null && running[i].status != Preempted
      ensures running[i].id in own.byId && own.byId[running[i].id] == running[i]
      ensures running[i].Value() == st.running[i] && running[i].id == st.running[i].id
    {
      hide Safe, Prefixes, Views;
      HoldsParts(own, running[i], st.running[i]);
      DoneIsDecoding(cfg, m, st, st.running[i]);
      RunningHasView(cfg, st.running[i]);
    }

    /** Phase 2: prefills in flight. */
    method PrefillPhase(p: Plan, ghost m: Model) returns (plan: Plan)
      requires Valid() && cfg.bs > 0 && Safe(cfg, m, st) && Settled(st) && Known(own, p)
      ensures Valid() && Known(own, plan)
      ensures WorkOf(plan, st) == Scheduling.PrefillPhase(cfg, WorkOf(p, st), 0)
    {
      hide *;
      plan := p;
      var batch := running;
      ghost var e := st;
      SizesMatch();
      WorkState(e);
      for i := 0 to |batch|
        invariant Valid() && Known(own, plan) && batch == running && st == e && |batch| == |e.running|
        invariant WorkOf(plan, e).st == e
        invariant Scheduling.PrefillPhase(cfg, WorkOf(p, e), 0) == Scheduling.PrefillPhase(cfg, WorkOf(plan, e), i)
      {
        WorkIs(plan, st);
        PrefillsStop(cfg, WorkOf(plan, st), i);
        if plan.budget <= 0 {
          return;
        }
        var request := batch[i];
        RunningAt(i, m);
        if request.Value().PrefillDone() || request.status == Preempted {
          continue;
        }
        AvailableIs(plan);
        HoldsParts(own, request, st.running[i]);
        MakeChunkIs(request, plan.budget, Available(plan), st.running[i]);
        var chunk := MakeChunk(request, plan.budget, Available(plan));
        if chunk.None? {
          continue;
        }
        var total := chunk.value.startPos + chunk.value.numTokens;
        var needed := request.kv.BlocksNeeded(total);
        NeedFor(cfg, st.running[i], total);
        NeedOf(request.kv, total);
        AddChunkIs(cfg, own, plan, st, st.running[i], chunk.value, needed);
        plan := AddChunk(plan, chunk.value, needed);
        WorkIs(plan, st);
      }
      WorkIs(plan, st);
      PrefillsStop(cfg, WorkOf(plan, st), |batch|);
    }

    lemma SizesMatch()
      requires Valid()
      ensures |running| == |st.running| && |waiting| == |st.waiting| && this !in own.repr
    {
      hide Memory, Prefixes, Holds, Views;
    }

    /** Phase 3, one turn: admit the head of the queue with its first slice; false ends the phase. */
    method AdmitOne(p: Plan, ghost m: Model) returns (plan: Plan, more: bool)
      requires cfg.bs > 0 && Valid() && Planning(cfg, m, WorkOf(p, st)) && Known(own, p)
      requires waiting != [] && p.budget > 0 && |running| < cfg.maxSeqs
      modifies this`running, this`waiting, this`st, this`own, own.repr
      ensures Valid() && Known(own, plan)
      ensures own == old(own).(repr := own.repr) && old(own.repr) <= own.repr && fresh(own.repr - old(own.repr))
      ensures more ==>
        && Planning(cfg, m, WorkOf(plan, st)) && |waiting| < old(|waiting|)
        && Scheduling.AdmitPhase(cfg, WorkOf(p, old(st))) == Scheduling.AdmitPhase(cfg, WorkOf(plan, st))
      ensures !more ==> WorkOf(plan, st) == Scheduling.AdmitPhase(cfg, WorkOf(p, old(st)))
      ensures kv.allocator.cowCopies == old(kv.allocator.cowCopies)
    {
      hide *;
      ghost var w := WorkOf(p, st);
      SizesMatch();
      WorkIs(p, st);
      PlanningIs(cfg, m, w);
      MayAdmitIs(cfg, w);
      AvailableIs(p);
      ghost var e, r, e2 := AdmitTurn(cfg, m, w);
      AdmittedIs(cfg, w, e, r, e2);
      var request := waiting[0];
      var ok := Admit(request, Available(p), m);
      KnownStays(old(own), own, p);
      if !ok {
        return p, false;
      }
      MoveHead();
      SizesMatch();
      LastHolds(request);
      AvailableIs(p);
      MakeChunkIs(request, p.budget, Available(p), r);
      var chunk := MakeChunk(request, p.budget, Available(p));
      if chunk.None? {
        RollBack(request, m);
        return p, false;
      }
      var total := chunk.value.startPos + chunk.value.numTokens;
      var needed := request.kv.BlocksNeeded(total);
      NeedFor(cfg, r, total);
      NeedOf(request.kv, total);
      AddChunkIs(cfg, own, p, st, r, chunk.value, needed);
      return AddChunk(p, chunk.value, needed), true;
    }

    lemma LastHolds(request: Request)
      requires Valid() && running != [] && running[|running| - 1] == request
      ensures st.running != [] && Holds(own, request, st.running[|st.running| - 1])
      ensures own.cache == kv && kv.blockSize == cfg.bs && this !in own.repr
      ensures request.kv == null <==> st.running[|st.running| - 1].kv.None?
      ensures request.kv != null ==>
        request.kv.cache == kv && request.kv.blockTable == st.running[|st.running| - 1].Table()
      ensures request.id in own.byId && own.byId[request.id] == request
    {
      hide Prefixes, Views;
    }

    /** Phase 3: admit new requests while budget and memory allow. */
    method AdmitPhase(p: Plan, ghost m: Model) returns (plan: Plan)
      requires cfg.bs > 0 && Valid() && Planning(cfg, m, WorkOf(p, st)) && Known(own, p)
      modifies this`running, this`waiting, this`st, this`own, own.repr
      ensures Valid() && Known(own, plan)
      ensures own == old(own).(repr := own.repr) && old(own.repr) <= own.repr && fresh(own.repr - old(own.repr))
      ensures WorkOf(plan, st) == Scheduling.AdmitPhase(cfg, WorkOf(p, old(st)))
      ensures kv.allocator.cowCopies == old(kv.allocator.cowCopies)
    {
      hide *;
      plan := p;
      ghost var w0 := WorkOf(p, st);
      var more := true;
      while more && waiting != [] && plan.budget > 0 && |running| < cfg.maxSeqs
        invariant Valid() && Known(own, plan)
        invariant own == old(own).(repr := own.repr) && old(own.repr) <= own.repr && fresh(own.repr - old(own.repr))
        invariant more ==>
          Planning(cfg, m, WorkOf(plan, st))
            && Scheduling.AdmitPhase(cfg, w0) == Scheduling.AdmitPhase(cfg, WorkOf(plan, st))
        invariant !more ==> WorkOf(plan, st) == Scheduling.AdmitPhase(cfg, w0)
        invariant kv.allocator.cowCopies == old(kv.allocator.cowCopies)
        decreases more, |waiting|
      {
        plan, more := AdmitOne(plan, m);
      }
      SizesMatch();
      WorkIs(plan, st);
      MayAdmitIs(cfg, WorkOf(plan, st));
      if more {
        AdmitStops(cfg, WorkOf(plan, st));
      }
    }

    /** Phase 4, nothing running and nothing scheduled: take blocks back from the cache. */
    method BreakStall(p: Plan, ghost m: Model)
      requires cfg.bs > 0 && Valid() && Planning(cfg, m, WorkOf(p, st))
      modifies this`st, own.repr
      ensures Valid() && running == old(running) && waiting == old(waiting)
      ensures WorkOf(p, st) == Scheduling.BreakStall(cfg, WorkOf(p, old(st)))
      ensures kv.allocator.cowCopies == old(kv.allocator.cowCopies)
    {
      hide *;
      SizesMatch();
      WorkIs(p, st);
      PlanningIs(cfg, m, WorkOf(p, st));
      SafeTree(cfg, m, st);
      RadixReady();
      PlanEmpty(p, st);
      BreakStallIs(cfg, WorkOf(p, st));
      if p.decodes == [] && p.chunks == [] && running == [] && waiting != [] && radix != null {
        var head := waiting[0];
        HeadHolds(head);
        MemoryKnown();
        var needed := CeilDiv(head.computed + 1, cfg.bs);
        var short := needed - |kv.allocator.free|;
        var gone := Reclaim(if short > 1 then short else 1, m);
      }
    }

    /** Phase 4, everything running is blocked: evict until the oldest request can take its next block. */
    method ForceHead(p: Plan, ghost m: Model) returns (plan: Plan)
      requires cfg.bs > 0 && Valid() && Planning(cfg, m, WorkOf(p, st)) && Known(own, p)
      modifies this`running, this`waiting, this`st, own.repr
      ensures Valid() && Known(own, plan)
      ensures WorkOf(plan, st) == Scheduling.ForceHead(cfg, WorkOf(p, old(st)))
      ensures kv.allocator.cowCopies == old(kv.allocator.cowCopies)
    {
      hide *;
      SizesMatch();
      WorkIs(p, st);
      PlanningIs(cfg, m, WorkOf(p, st));
      PlanEmpty(p, st);
      ForceHeadIs(cfg, WorkOf(p, st));
      if p.decodes == [] && p.chunks == [] && running != [] {
        var head := running[0];
        RunningAt(0, m);
        ghost var rec := st.running[0];
        HoldsParts(own, head, rec);
        if head.Value().PrefillDone() {
          var needed := head.kv.BlocksNeeded(head.computed + 1);
          NeedOf(head.kv, head.computed + 1);
          NeedIs(cfg, rec);
          MemoryKnown();
          if needed > |kv.allocator.free| {
            MakeRoom(needed, {head.id}, m);
            WorkIs(p, st);
            MemoryKnown();
          }
          if needed <= |kv.allocator.free| {
            ForcedIs(own, p, st, head);
            return Forced(p, head);
          }
        }
      }
      return p;
    }

    lemma MemoryKnown()
      requires Valid()
      ensures |kv.allocator.free| == |st.pool.free|
    {
      hide Prefixes, Coupled;
    }

    /** One call of schedule() that undoes no cache hit. */
    method Schedule(ghost m: Model) returns (plan: Plan)
      requires cfg.bs > 0 && Clean(cfg, st) && Valid() && Safe(cfg, m, st) && Settled(st)
      modifies this`running, this`waiting, this`st, this`own, own.repr
      ensures Valid() && Known(own, plan)
      ensures own == old(own).(repr := own.repr) && old(own.repr) <= own.repr && fresh(own.repr - old(own.repr))
      ensures WorkOf(plan, st) == Scheduling.Schedule(cfg, old(st))
      ensures kv.allocator.cowCopies == old(kv.allocator.cowCopies)
    {
      hide *;
      SizesMatch();
      PhasesKeep(cfg, m, st);
      plan := Plan(cfg.budget, 0, {}, [], []);
      StartPlan(cfg, own, st);
      WorkIs(plan, st);
      plan := DecodePhase(plan, m);
      WorkIs(plan, st);
      PlanningIs(cfg, m, WorkOf(plan, st));
      plan := PrefillPhase(plan, m);
      WorkIs(plan, st);
      plan := AdmitPhase(plan, m);
      WorkIs(plan, st);
      SizesMatch();
      BreakStall(plan, m);
      WorkIs(plan, st);
      plan := ForceHead(plan, m);
    }

    // ---- arrivals and departures

    /** Queue a new request. */
    method AddRequest(request: Request, ghost m: Model)
      requires Valid() && Safe(cfg, m, st) && request.id == admitted && request.kv == null
      requires request.Value() ==
        Req(request.id, request.prompt, request.maxTokens, request.ignoreEos, request.status, [], None, 0)
      modifies this`waiting, this`admitted, this`st, this`own, request`status
      ensures Valid() && running == old(running) && waiting == old(waiting) + [request]
      ensures st == old(st).(waiting :=
        old(st).waiting + [NewRequest(old(st).nextId, request.prompt, request.maxTokens, request.ignoreEos)],
                             nextId := old(st).nextId + 1)
      ensures own == Owner(old(own).cache, old(own).repr + {request}, old(own).byId[request.id := request])
    {
      hide *;
      ghost var rs, ws, rec :=
        st.running, st.waiting, NewRequest(st.nextId, request.prompt, request.maxTokens, request.ignoreEos);
      ValidIs();
      MemoryIs(st.pool, st.mem);
      PrefixesIs(st.tree);
      CoupledAll(own, running, rs);
      CoupledAll(own, waiting, ws);
      IdsBelow(m);
      request.SetStatus(Waiting);
      waiting := waiting + [request];
      admitted := admitted + 1;
      own := Owner(own.cache, own.repr + {request}, own.byId[request.id := request]);
      st := st.(waiting := ws + [rec], nextId := st.nextId + 1);
      CoupledJoin(old(own), own, running, rs, request);
      CoupledJoin(old(own), own, old(waiting), ws, request);
      NewRequestIs(own, request, rec);
      CoupledOne(own, request, rec);
      CoupledConcat(own, old(waiting), ws, [request], [rec]);
      MemoryIs(st.pool, st.mem);
      PrefixesIs(st.tree);
      ValidIs();
    }

    /** Valid, object by object: what a change elsewhere leaves alone. */
    lemma Unpack()
      requires Valid()
      ensures Memory(own, st.pool, st.mem) && Prefixes(own, st.tree) && st.nextId == admitted && this !in own.repr
      ensures |running| == |st.running| && forall j :: 0 <= j < |running| ==> Holds(own, running[j], st.running[j])
      ensures |waiting| == |st.waiting| && forall j :: 0 <= j < |waiting| ==> Holds(own, waiting[j], st.waiting[j])
    {
      hide Memory, Prefixes, Holds, Views;
    }

    lemma Repack()
      requires Memory(own, st.pool, st.mem) && Prefixes(own, st.tree) && st.nextId == admitted && this !in own.repr
      requires |running| == |st.running| && forall j :: 0 <= j < |running| ==> Holds(own, running[j], st.running[j])
      requires |waiting| == |st.waiting| && forall j :: 0 <= j < |waiting| ==> Holds(own, waiting[j], st.waiting[j])
      ensures Valid()
    {
      hide Memory, Prefixes, Holds, Views;
    }

    lemma Counted()
      requires Valid()
      ensures admitted == st.nextId
    {
      hide Memory, Prefixes, Coupled;
    }

    lemma IdsBelow(m: Model)
      requires Valid() && Safe(cfg, m, st)
      ensures forall r :: r in running ==> r.id < admitted
      ensures forall r :: r in waiting ==> r.id < admitted
      ensures this !in own.repr && st.nextId == admitted
    {
      SafeNextId(cfg, m, st);
      hide Safe, Memory, Prefixes, Holds, Views;
      CoupledIds(own, running, st.running);
      CoupledIds(own, waiting, st.waiting);
    }

    /** A request gives its KV back and leaves its queue; `final` is what it leaves in the history. */
    method Depart(r: Request, k: nat, ghost final: Req)
      requires Valid() && Distinct(Queued(st)) && Stands(r, k)
      requires k < |Queued(st)| && AllLive(st.pool, Queued(st)[k].Table())
      modifies this`running, this`waiting, this`st, own.repr
      ensures Valid() && st == Departed(old(st), k, final)
      ensures k < old(|running|) ==> running == Except(old(running), k) && waiting == old(waiting)
      ensures k >= old(|running|) ==> running == old(running) && |waiting| == old(|waiting|) - 1
      ensures r.kv == null && r.Value() == Queued(old(st))[k].(kv := None)
      ensures kv.allocator.cowCopies == old(kv.allocator.cowCopies)
    {
      hide *;
      ghost var rs, ws := st.running, st.waiting;
      ValidIs();
      SizesMatch();
      StandsIs(r, k);
      Standing(r, k);
      DepartedIs(st, k, final);
      Vacate(r, false, k);
      OthersStill(k);
      HoldsParts(own, r, Queued(st)[k].(kv := None));
      st := Departed(st, k, final);
      if k < |running| {
        running := Except(running, k);
        CoupledExcept(own, old(running), rs, k);
        CoupledAll(own, waiting, ws);
      } else {
        waiting := Except(waiting, k - |running|);
        CoupledExcept(own, old(waiting), ws, k - |running|);
        CoupledAll(own, running, rs);
      }
      PrefixesIs(st.tree);
      ValidIs();
    }

    lemma StandsIs(r: Request, k: nat)
      ensures Stands(r, k) <==>
        if k < |running| then running[k] == r else k - |running| < |waiting| && waiting[k - |running|] == r
    {
    }

    /** Release and forget a request, wherever it is queued. */
    method Abort(id: nat, ghost m: Model) returns (found: Option<Request>)
      requires Valid() && Safe(cfg, m, st)
      modifies this`running, this`waiting, this`st, own.repr
      ensures Valid() && st == Serving.Abort(old(st), id)
      ensures found.Some? <==>
        Find(old(st).waiting, id) < |old(st).waiting| || Find(old(st).running, id) < |old(st).running|
      ensures found.Some? ==>
        && found.value.id == id && id in own.byId && own.byId[id] == found.value && |st.done| > 0
        && found.value.kv == null && found.value.Value().(status := Aborted) == st.done[|st.done| - 1]
      ensures kv.allocator.cowCopies == old(kv.allocator.cowCopies)
    {
      hide *;
      SizesMatch();
      SafeIds(cfg, m, st);
      CoupledSame(id);
      QueuedSizes(st);
      var i := Position(waiting, id);
      if i < |waiting| {
        found := Some(waiting[i]);
        AbortWaiting(st, id, i);
        Leave(waiting[i], |running| + i, m);
        return;
      }
      i := Position(running, id);
      if i < |running| {
        found := Some(running[i]);
        AbortRunning(st, id, i);
        Leave(running[i], i, m);
        return;
      }
      AbortNobody(st, id);
      return None;
    }

    /** An aborted request leaves. */
    method Leave(r: Request, k: nat, ghost m: Model)
      requires Valid() && Safe(cfg, m, st) && k < |running| + |waiting| && k < |Queued(st)|
      requires r == if k < |running| then running[k] else waiting[k - |running|]
      modifies this`running, this`waiting, this`st, own.repr
      ensures Valid() && st == Departed(old(st), k, Queued(old(st))[k].(kv := None, status := Aborted))
      ensures r.id in own.byId && own.byId[r.id] == r
      ensures r.kv == null && r.Value() == Queued(old(st))[k].(kv := None)
      ensures kv.allocator.cowCopies == old(kv.allocator.cowCopies)
    {
      hide *;
      SizesMatch();
      SafeIds(cfg, m, st);
      StandsAt(k);
      Standing(r, k);
      HoldsParts(own, r, Queued(st)[k]);
      TableIsLive(cfg, m, st, Queued(st)[k]);
      Depart(r, k, Queued(st)[k].(kv := None, status := Aborted));
    }

    lemma CoupledSame(id: nat)
      requires Valid()
      ensures Position(waiting, id) == Find(st.waiting, id) && Position(running, id) == Find(st.running, id)
    {
      hide Memory, Prefixes, Holds, Views;
      PositionIs(own, running, st.running, id);
      PositionIs(own, waiting, st.waiting, id);
    }

    /** Publish a finished sequence's full blocks into the prefix cache. */
    method CommitPrefix(request: Request, i: nat, ghost m: Model)
      requires cfg.bs > 0 && Valid() && Safe(cfg, m, st) && i < |running| == |st.running| && running[i] == request
      requires st.running[i].status == Finished
      modifies this`st, this`own, own.repr
      ensures Valid() && running == old(running) && waiting == old(waiting)
      ensures st == Serving.CommitPrefix(cfg, old(st), old(st).running[i])
      ensures own == old(own).(repr := own.repr) && old(own.repr) <= own.repr && fresh(own.repr - old(own.repr))
      ensures kv.allocator.cowCopies == old(kv.allocator.cowCopies)
    {
      hide *;
      ghost var rec := st.running[i];
      ValidIs();
      StandsAt(i);
      SafeIds(cfg, m, st);
      Standing(request, i);
      QueuedSizes(st);
      HoldsParts(own, request, rec);
      CommitIs(cfg, m, st, i);
      SafeTree(cfg, m, st);
      RadixReady();
      if radix == null || request.kv == null {
        return;
      }
      MemoryIs(st.pool, st.mem);
      PrefixesIs(st.tree);
      FullBlocksAre(cfg, request.kv, rec);
      Publish(request.Value().AllTokens(), request.kv.FullBlocks(), Serving.CommitPrefix(cfg, st, rec));
    }

    /** Insert into the prefix cache. */
    method Publish(tokens: seq<Token>, blocks: seq<nat>, ghost e: State)
      requires cfg.bs > 0 && Valid() && TreeOk(st.tree) && radix != null
      requires NoRepeats(blocks) && AllIncref(st.pool, blocks)
      requires Unregistered(st.tree.nodes, InsertPath(cfg.bs, tokens, blocks), blocks, 0)
      requires var c := Insert(cfg.bs, CacheOf(st), tokens, blocks, cfg.maxCached);
        e == st.(tree := c.tree, pool := c.pool)
      modifies this`st, this`own, own.repr
      ensures Valid() && running == old(running) && waiting == old(waiting) && st == e
      ensures own == old(own).(repr := own.repr) && old(own.repr) <= own.repr && fresh(own.repr - old(own.repr))
      ensures kv.allocator.cowCopies == old(kv.allocator.cowCopies)
    {
      hide *;
      ValidIs();
      MemoryIs(st.pool, st.mem);
      PrefixesIs(st.tree);
      RadixReady();
      ghost var rs, ws := st.running, st.waiting;
      CoupledAll(own, running, rs);
      CoupledAll(own, waiting, ws);
      InsertIsEvict(cfg.bs, CacheOf(st), tokens, blocks, cfg.maxCached);
      var added := radix.Insert(tokens, blocks);
      radix.ValidParts();
      radix.ValueIs([]);
      own := own.(repr := own.repr + radix.at.Values);
      st := e;
      CoupledGrows(old(own), own, running, rs);
      CoupledGrows(old(own), own, waiting, ws);
      MemoryIs(st.pool, st.mem);
      PrefixesIs(st.tree);
      ValidIs();
    }

    /** A finished request publishes its blocks, gives them back and stops running. */
    method Retire(request: Request, i: nat, ghost m: Model)
      requires cfg.bs > 0 && Valid() && Safe(cfg, m, st) && i < |running| == |st.running| && running[i] == request
      requires st.running[i].IsFinished()
      modifies this`running, this`waiting, this`st, this`own, own.repr
      ensures Valid() && running == Except(old(running), i) && waiting == old(waiting)
      ensures st == Serving.Retire(cfg, old(st), i)
      ensures own == old(own).(repr := own.repr) && old(own.repr) <= own.repr && fresh(own.repr - old(own.repr))
      ensures kv.allocator.cowCopies == old(kv.allocator.cowCopies)
    {
      hide *;
      ghost var rec := st.running[i];
      FinishedOutput(cfg, m, st, i);
      CommitPrefixLeaving(cfg, m, st, i);
      RetireIs(cfg, m, st, i);
      CommitPrefix(request, i, m);
      SizesMatch();
      StandsAt(i);
      Depart(request, i, rec.(kv := None));
    }

    lemma PrefixesIs(tree: Tree)
      ensures Prefixes(own, tree) <==>
        if radix == null then !cfg.caching && tree == EmptyTree
        else
          && radix in own.repr && radix.at.Values <= own.repr
          && cfg.caching && radix.allocator == kv.allocator
          && radix.blockSize == cfg.bs && radix.maxBlocks == Some(cfg.maxCached)
          && radix.IsTree() && tree == radix.Value().tree
    {
      hide Linked;
    }

    lemma RadixReady()
      requires Valid() && TreeOk(st.tree) && cfg.bs > 0
      ensures radix != null <==> cfg.caching
      ensures radix != null ==>
        radix.Valid() && radix.Value() == CacheOf(st) && radix.allocator == kv.allocator && radix.blockSize == cfg.bs
    {
      hide Coupled, Linked, TreeOk;
    }

    /** Evict from the prefix cache. */
    method Reclaim(k: int, ghost m: Model) returns (gone: nat)
      requires Valid() && Safe(cfg, m, st) && cfg.bs > 0 && radix != null
      modifies this`st, own.repr
      ensures Valid() && running == old(running) && waiting == old(waiting)
      ensures st == Scheduling.Reclaim(old(st), if k > 0 then k else 0)
      ensures kv.allocator.cowCopies == old(kv.allocator.cowCopies)
    {
      hide *;
      ValidIs();
      MemoryIs(st.pool, st.mem);
      PrefixesIs(st.tree);
      SafeTree(cfg, m, st);
      RadixReady();
      CoupledAll(own, running, st.running);
      CoupledAll(own, waiting, st.waiting);
      ReclaimIs(st, if k > 0 then k else 0);
      gone := radix.Evict(k);
      radix.ValidParts();
      radix.ValueIs([]);
      st := Scheduling.Reclaim(st, if k > 0 then k else 0);
      CoupledAll(own, running, st.running);
      CoupledAll(own, waiting, st.waiting);
      MemoryIs(st.pool, st.mem);
      PrefixesIs(st.tree);
      ValidIs();
    }

    /**
     Free KV: cached blocks first, then the newest running requests, sparing those
     already committed to this step.
     */
    method MakeRoom(needed: nat, protected: set<nat>, ghost m: Model)
      requires Valid() && Safe(cfg, m, st) && Settled(st) && cfg.bs > 0
      modifies this`running, this`waiting, this`st, own.repr
      ensures Valid() && st == Scheduling.MakeRoom(cfg, old(st), needed, protected)
      ensures kv.allocator.cowCopies == old(kv.allocator.cowCopies)
    {
      hide *;
      ghost var e := st;
      ValidIs();
      MemoryIs(st.pool, st.mem);
      SafeTree(cfg, m, st);
      RadixReady();
      MakeRoomIs(cfg, e, needed, protected);
      if radix != null {
        var shortfall := needed - FreeBlocks();
        if shortfall > 0 {
          ReclaimSafe(cfg, m, st, shortfall);
          ReclaimIs(st, shortfall);
          SettledSame(st, Scheduling.Reclaim(st, shortfall));
          var gone := Reclaim(shortfall, m);
        }
      }
      if !cfg.preemption {
        return;
      }
      ghost var mid := st;
      while FreeBlocks() < needed
        invariant Valid() && Safe(cfg, m, st) && Settled(st)
        invariant PreemptUntil(cfg, mid, needed, protected) == PreemptUntil(cfg, st, needed, protected)
        invariant kv.allocator.cowCopies == old(kv.allocator.cowCopies)
        decreases |running|
      {
        ValidIs();
        MemoryIs(st.pool, st.mem);
        PreemptUntilIs(cfg, st, needed, protected);
        NewestIs(own, running, st.running, protected);
        var v := Newest(running, protected);
        if v.None? {
          break;
        }
        SettledAt(st, v.value);
        PreemptSafe(cfg, m, st, v.value);
        PreemptSettled(st, v.value);
        Preempt(running[v.value], v.value, m);
      }
      ValidIs();
      MemoryIs(st.pool, st.mem);
      PreemptUntilIs(cfg, st, needed, protected);
    }
  }

  lemma MakeRoomIs(cfg: Config, e: State, needed: nat, protected: set<nat>)
    ensures var short := needed - (|e.pool.free| - cfg.watermark);
      var e' := if cfg.caching && short > 0 then Scheduling.Reclaim(e, short) else e;
      Scheduling.MakeRoom(cfg, e, needed, protected) ==
        if cfg.preemption then PreemptUntil(cfg, e', needed, protected) else e'
  {
    hide Scheduling.Reclaim, PreemptUntil;
  }

  lemma PreemptUntilIs(cfg: Config, e: State, needed: nat, protected: set<nat>)
    ensures |e.pool.free| - cfg.watermark >= needed ==> PreemptUntil(cfg, e, needed, protected) == e
    ensures |e.pool.free| - cfg.watermark < needed ==>
      match NewestUnprotected(e.running, protected)
      case None => PreemptUntil(cfg, e, needed, protected) == e
      case Some(i) =>
        PreemptUntil(cfg, e, needed, protected) == PreemptUntil(cfg, Scheduling.Preempt(e, i), needed, protected)
  {
    hide Scheduling.Preempt, NewestUnprotected;
  }

  lemma SettledAt(e: State, i: nat)
    requires Settled(e) && i < |e.running|
    ensures !e.running[i].IsFinished()
  {
  }

  lemma PreemptSettled(e: State, i: nat)
    requires Settled(e) && i < |e.running|
    ensures Settled(Scheduling.Preempt(e, i))
  {
  }

  lemma SafeIds(cfg: Config, m: Model, e: State)
    requires Safe(cfg, m, e)
    ensures Distinct(Queued(e))
  {
    hide MemoryOk, ShapesOk, OwnershipOk, ViewsOk, NodesOk, OutputsOk, Distinct;
  }

  function WithView(e: State): State
    requires e.waiting != []
  {
    e.(waiting := [e.waiting[0].(kv := Some(SeqKV([], 0, 0)))] + e.waiting[1..])
  }

  /** The head's view after a lookup of its prompt in the prefix cache. */
  function Adopted(cfg: Config, e: State): State
    requires cfg.bs > 0 && e.waiting != []
  {
    if !cfg.caching then e
    else
      var r, blocks := e.waiting[0], MatchBlocks(cfg.bs, e.tree, e.waiting[0].prompt);
      e.(tree := MatchTree(cfg.bs, e.tree, r.prompt), pool := IncrefMany(e.pool, blocks),
         waiting := [AdoptedReq(cfg, r, blocks)] + e.waiting[1..])
  }

  function AdoptedReq(cfg: Config, r: Req, blocks: seq<nat>): Req {
    var matched := |blocks| * cfg.bs;
    if blocks == [] then r else r.(kv := Some(SeqKV(blocks, matched, |blocks|)), computed := matched)
  }

  lemma AdoptedIs(cfg: Config, e: State)
    requires cfg.bs > 0 && e.waiting != [] && cfg.caching
    ensures var e', blocks := Adopted(cfg, e), MatchBlocks(cfg.bs, e.tree, e.waiting[0].prompt);
      && e'.waiting == [AdoptedReq(cfg, e.waiting[0], blocks)] + e.waiting[1..] && e'.running == e.running
      && e'.pool == IncrefMany(e.pool, blocks) && (blocks == [] ==> e'.pool == e.pool)
      && e'.tree == MatchTree(cfg.bs, e.tree, e.waiting[0].prompt)
      && e'.mem == e.mem && e'.done == e.done && e'.nextId == e.nextId
    ensures AdoptedReq(cfg, e.waiting[0], []) == e.waiting[0] && [e.waiting[0]] + e.waiting[1..] == e.waiting
  {
    hide MatchBlocks, MatchTree;
  }

  lemma AttachIsAdopted(cfg: Config, e: State)
    requires cfg.bs > 0 && e.waiting != []
    ensures Scheduling.Attach(cfg, e) == if e.waiting[0].kv.Some? then e else Adopted(cfg, WithView(e))
  {
    hide MatchBlocks, MatchTree, IncrefMany;
    if e.waiting[0].kv.None? && cfg.caching {
      var blocks := MatchBlocks(cfg.bs, e.tree, e.waiting[0].prompt);
      NoIncref(e.pool, blocks);
    }
  }

  lemma NoIncref(p: Pool, blocks: seq<nat>)
    ensures blocks == [] ==> IncrefMany(p, blocks) == p
  {
  }

  lemma WholeBlocks(n: nat, bs: nat)
    requires bs > 0
    ensures n * bs / bs == n
  {
    PositionUnique(n * bs, n, 0, bs);
  }

  lemma WithViewIs(e: State)
    requires e.waiting != []
    ensures var e' := WithView(e);
      && e'.waiting == [e.waiting[0].(kv := Some(SeqKV([], 0, 0)))] + e.waiting[1..] && e'.running == e.running
      && e'.pool == e.pool && e'.mem == e.mem && e'.tree == e.tree && e'.done == e.done && e'.nextId == e.nextId
    ensures |e.running| < |Queued(e)| && Queued(e)[|e.running|] == e.waiting[0]
  {
  }

  lemma SafeTree(cfg: Config, m: Model, e: State)
    requires Safe(cfg, m, e)
    ensures TreeOk(e.tree)
  {
    hide TreeOk, ShapesOk, OwnershipOk, ViewsOk, NodesOk, OutputsOk, IdsOk;
  }

  lemma ReclaimIs(e: State, k: nat)
    ensures var e', c := Scheduling.Reclaim(e, k), Evict(CacheOf(e), k);
      && e'.pool == c.pool && e'.tree == c.tree && e'.mem == e.mem
      && e'.running == e.running && e'.waiting == e.waiting && e'.done == e.done && e'.nextId == e.nextId
  {
    hide Evict;
  }
}
