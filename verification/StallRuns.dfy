/**
 Two runs in which the oldest request stands still for good, whatever the model: with the
 prefix cache on, and every request small enough for the pool.
 */
module StallRuns {
  import opened Numbers
  import opened Blocks
  import opened Paging
  import opened Decoding
  import opened Options
  import opened Radix
  import opened Requests
  import opened Scheduling
  import opened Serving
  import opened Safety
  import opened SafetyAdmission
  import opened SafetySchedule
  import opened SafetyExec
  import opened Runs
  import opened Conservation
  import opened Progress
  import opened Drain
  import opened Stalls
  import opened Advancing

  /** Two blocks of one token, at most one of them cached, two running requests, four tokens a step. */
  const TIGHT := Config(1, 2, 0, 2, 4, true, true, true, 1, 8, 256)

  /** The request whose block is cached. */
  const SERVED := [Add([1], 1, true), Tick]

  /** A prompt of two blocks when one is free and one is cached. */
  const LONG_PROMPT := SERVED + [Add([5, 6], 1, true)] + [Tick]

  /** A decode of two blocks, and a prompt that begins like the cached one. */
  const SHARED_PREFIX := SERVED + [Add([9], 2, true)] + [Add([1, 4], 1, true)] + [Tick]

  const PATH: Path := [[1]]

  lemma TightIsLively()
    ensures Lively(TIGHT) && Allowed(TIGHT) && TIGHT.bs == 1 && TIGHT.numBlocks == 2 && TIGHT.watermark == 0
    ensures TIGHT.budget == 4 && TIGHT.maxSeqs == 2
  {
  }

  // ---- events

  lemma Submitted(m: Model, events: seq<Event>, e: State, prompt: seq<Token>, maxTokens: nat)
    requires Run(TIGHT, m, events) == Some(e) && Acceptable(TIGHT, prompt, maxTokens)
    ensures Run(TIGHT, m, events + [Add(prompt, maxTokens, true)]) ==
      Some(e.(waiting := e.waiting + [NewRequest(e.nextId, prompt, maxTokens, true)], nextId := e.nextId + 1))
  {
    hide Acceptable, Step, Next;
    var all := events + [Add(prompt, maxTokens, true)];
    assert all[..|all| - 1] == events;
    OneAccepted(m, e, prompt, maxTokens);
  }

  lemma OneAccepted(m: Model, e: State, prompt: seq<Token>, maxTokens: nat)
    requires Acceptable(TIGHT, prompt, maxTokens)
    ensures Next(TIGHT, m, e, Add(prompt, maxTokens, true)) ==
      Some(e.(waiting := e.waiting + [NewRequest(e.nextId, prompt, maxTokens, true)], nextId := e.nextId + 1))
  {
  }

  /** A request as it is submitted. */
  ghost predicate Fresh(r: Req) {
    r.kv.None? && r.computed == 0 && r.output == [] && r.prompt != [] && r.status == Waiting && r.ignoreEos
  }

  function Entered(r: Req): Req { r.(status := Prefill, kv := Some(SeqKV([], 0, 0))) }

  // ---- a step that admits somebody

  /** A fresh request whose lookup finds nothing is admitted with a slice. */
  lemma Admits(m: Model, w: Work, r: Req, rest: seq<Req>, c: Slice)
    requires Safe(TIGHT, m, w.st) && w.st.waiting == [r] + rest && Fresh(r)
    requires MatchBlocks(1, w.st.tree, r.prompt) == [] && w.budget > 0 && |w.st.running| < 2
    requires Available(TIGHT, w) >= 1
    requires MakeChunk(TIGHT, Entered(r), w.budget, Available(TIGHT, w)) == Some(c)
    ensures var e := Attach(TIGHT, w.st);
      var e1 := Admit(e);
      && e.waiting != [] && e1.running == w.st.running + [Entered(r)] && e1.waiting == rest
      && e1.pool == w.st.pool && e1.tree.nodes.Keys == w.st.tree.nodes.Keys
      && AdmitPhase(TIGHT, w) == AdmitPhase(TIGHT, TakeChunk(TIGHT, w.(st := e1), Entered(r), c))
  {
    hide Safe, MakeChunk, WaitingOk, AdmitPhase, HeadReplaced, TreeOk;
    var e := Attach(TIGHT, w.st);
    WaitingHead(TIGHT, m, w.st);
    AttachIs(TIGHT, w.st);
    SafeTreeOk(m, w.st);
    StampedTree(TIGHT, w.st);
    assert e.pool == w.st.pool;
    assert e.waiting[0].(status := Prefill) == Entered(r);
    CeilDivUnique(1, 1, 1);
    assert Need(TIGHT, e.waiting[0], e.waiting[0].computed + 1) == 1;
    AdmitStep(TIGHT, w, Entered(r), c);
  }

  lemma SafeTreeOk(m: Model, e: State)
    requires Safe(TIGHT, m, e)
    ensures TreeOk(e.tree)
  {
    hide TreeOk, ShapesOk, OwnershipOk, ViewsOk, NodesOk, OutputsOk, IdsOk;
  }

  /** Nobody runs: the call is its admission phase, if that plans something. */
  lemma OnlyAdmission(e: State, w: Work)
    requires e.running == [] && AdmitPhase(TIGHT, Work(e, 4, 0, {}, [], [])) == w && w.chunks != []
    ensures Schedule(TIGHT, e) == w
  {
    hide *;
    TightIsLively();
    var w0 := Work(e, 4, 0, {}, [], []);
    EmptyPhases(TIGHT, w0);
    ScheduleUnfolds(TIGHT, e);
    NoPlan(w);
    LastPhases(TIGHT, w);
  }

  // ---- a step that runs one slice

  lemma OneSliceStep(m: Model, e: State, w: Work, r: Req, c: Slice) returns (p: Pass, e1: State)
    requires Safe(TIGHT, m, e) && Settled(e) && Schedule(TIGHT, e) == w
    requires w.decodes == [] && w.chunks == [c] && w.st.running == [r] && c.id == r.id
    ensures e1 == Commit(w.st, 0, p, AfterChunk(r, c, p)) && Safe(TIGHT, m, e1)
    ensures Step(TIGHT, m, e) == Some(RetireFrom(TIGHT, e1, 0))
  {
    hide *;
    TightIsLively();
    ScheduleIsExecutable(TIGHT, m, e);
    var e2;
    e1, e2 := PlanRuns(TIGHT, m, w.st, [], [c]);
    p := OneSlice(m, w.st, r, c);
    NoDecodes(m, e1);
    StepIs(m, e, w, e1);
  }

  lemma OneSlice(m: Model, e: State, r: Req, c: Slice) returns (p: Pass)
    requires e.running == [r] && c.id == r.id && ExecChunks(TIGHT, m, e, [c]).Some?
    ensures ExecChunks(TIGHT, m, e, [c]) == Some(Commit(e, 0, p, AfterChunk(r, c, p)))
  {
    hide Forward;
    assert Find(e.running, c.id) == 0;
    assert [c][1..] == [];
    assert ExecChunks(TIGHT, m, e, [c]) == ExecChunk(TIGHT, m, e, c);
    p := Forward(TIGHT, m, e, r, c.start, r.PrefillTokens()[c.start..c.start + c.count]).value;
  }

  lemma NoDecodes(m: Model, e: State)
    ensures ExecDecodes(TIGHT, m, e, []) == Some(e)
  {
  }

  lemma StepIs(m: Model, e: State, w: Work, e1: State)
    requires Schedule(TIGHT, e) == w && w.chunks != [] && w.decodes == []
    requires ExecChunks(TIGHT, m, w.st, w.chunks) == Some(e1) && ExecDecodes(TIGHT, m, e1, []) == Some(e1)
    ensures Step(TIGHT, m, e) == Some(RetireFrom(TIGHT, e1, 0))
  {
    hide Schedule, ExecChunks, ExecDecodes, RetireFrom;
  }

  // ---- one request is served, and its block cached

  const FIRST := NewRequest(0, [1], 1, true)

  /** Served: nobody queued, one block free, the other cached. */
  ghost predicate Primed(m: Model, e: State) {
    && Safe(TIGHT, m, e) && Settled(e) && e.running == [] && e.waiting == []
    && e.tree.nodes.Keys == {PATH} && |e.pool.free| == 1 && e.nextId == 1
  }

  lemma NoMatch(t: Tree, toks: seq<Token>)
    requires |toks| <= 1 || (toks[0] != 1 && t.nodes.Keys == {PATH})
    ensures MatchBlocks(1, t, toks) == []
  {
    if |toks| <= 1 {
      assert Usable(1, toks) == [];
    } else {
      var path := Usable(1, toks);
      FirstChunk(toks);
      assert path[..1][0] == [toks[0]];
      assert path[..1] != PATH;
    }
  }

  /** The first chunk of a path in blocks of one token. */
  lemma {:induction false} FirstChunkOf(toks: seq<Token>, k: nat)
    requires 0 < k <= |toks|
    ensures Chunks(1, toks, k)[0] == [toks[0]]
    decreases k
  {
    if k > 1 {
      FirstChunkOf(toks, k - 1);
    } else {
      assert Chunks(1, toks, 0) == [];
    }
  }

  lemma FirstChunk(toks: seq<Token>)
    requires |toks| > 1
    ensures Usable(1, toks) != [] && Usable(1, toks)[0] == [toks[0]]
  {
    FirstChunkOf(toks, |toks| - 1);
  }

  lemma OneTokenSlice(r: Req, available: int)
    requires Fresh(r) && |r.prompt| == 1 && available >= 1
    ensures MakeChunk(TIGHT, Entered(r), 4, available) == Some(Slice(r.id, 0, 1, true))
  {
    CeilDivUnique(1, 1, 1);
  }

  /** A finished one-token request leaves its block in the tree. */
  lemma Retires(m: Model, e: State, r: Req)
    requires Safe(TIGHT, m, e) && e.running == [r] && r.status == Finished && r.prompt == [1] && |r.output| == 1
    requires r.computed == 1 && r.kv.Some? && e.tree.nodes.Keys == {}
    ensures var e' := RetireFrom(TIGHT, e, 0);
      e'.running == [] && e'.waiting == e.waiting && e'.tree.nodes.Keys == {PATH} && e'.nextId == e.nextId
  {
    hide ViewsOk, NodesOk, OutputsOk, IdsOk, OwnershipOk, PrefixClosed, Aged, StampedTogether, Held, FreeListOk, Shaped,
      EvictTo, WaitingOk;
    assert RunningOk(TIGHT, r);
    OneBlockTable(r);
    var b := r.Table()[0];
    assert r.Table() == [b];
    assert FullBlocks(TIGHT, r) == [b];
    assert e.tree.nodes == map[];
    Publishes(CacheOf(e), r.AllTokens(), b);
    var e1 := CommitPrefix(TIGHT, e, r);
    assert e1.tree.nodes.Keys == {PATH} && e1.running == [r];
    var gone := r.(kv := None);
    assert Retire(TIGHT, e, 0) == Drop(e1, 0, gone);
    assert Without([r], 0) == [];
  }

  lemma OneBlockTable(r: Req)
    requires PagedOk(TIGHT, r) && r.computed == 1
    ensures |r.Table()| == 1
  {
  }

  lemma Publishes(c: Cache, toks: seq<Token>, b: nat)
    requires |toks| == 2 && toks[0] == 1 && c.tree.nodes == map[] && c.tree.cached == 0
    ensures Insert(1, c, toks, [b], 1).tree.nodes.Keys == {PATH}
  {
    assert Chunks(1, toks, 0) == [];
    assert toks[0 * 1..1 * 1] == [1];
    assert InsertPath(1, toks, [b]) == PATH;
    var now := c.tree.clock + 1;
    var c0 := c.(tree := c.tree.(clock := now));
    assert PATH[..0 + 1] == PATH;
    assert InsertFrom(c0, PATH, [b], 0, now).tree.nodes == map[][PATH := Node(b, now)];
    assert InsertFrom(c0, PATH, [b], 0, now).tree.cached == 1;
  }

  lemma FirstServed(m: Model) returns (e: State)
    ensures Run(TIGHT, m, SERVED) == Some(e) && Primed(m, e)
  {
    hide *;
    TightIsLively();
    var e1 := FirstSubmitted(m);
    RunBetween(TIGHT, m, [Add([1], 1, true)]);
    BetweenParts(TIGHT, m, e1);
    var w, c := FirstPlan(m, e1);
    var p, e2 := OneSliceStep(m, e1, w, Entered(FIRST), c);
    FirstFinishes(m, w, c, p, e2);
    Retires(m, e2, AfterChunk(Entered(FIRST), c, p));
    e := RetireFrom(TIGHT, e2, 0);
    ServedIs();
    NextTick(TIGHT, m, [Add([1], 1, true)]);
    RunBetween(TIGHT, m, SERVED);
    BetweenParts(TIGHT, m, e);
    AllowedIsClean(TIGHT, m, SERVED);
    DrainedPool(TIGHT, m, SERVED);
    OneCached(m, e);
    PrimedIs(m, e);
  }

  lemma ServedIs()
    ensures [Add([1], 1, true)] + [Tick] == SERVED && [Add([1], 1, true)] == [] + [Add([1], 1, true)]
    ensures FIRST.id == 0 && Fresh(FIRST) && FIRST.prompt == [1] && |FIRST.prompt| == 1
  {
  }

  lemma OneCached(m: Model, e: State)
    requires Safe(TIGHT, m, e) && e.tree.nodes.Keys == {PATH}
    ensures e.tree.cached == 1
  {
    hide ShapesOk, OwnershipOk, ViewsOk, NodesOk, OutputsOk, IdsOk, Held, Shaped, FreeListOk;
    assert |e.tree.nodes| == |e.tree.nodes.Keys|;
  }

  lemma PrimedIs(m: Model, e: State)
    requires Safe(TIGHT, m, e) && Settled(e) && e.running == [] && e.waiting == []
    requires e.tree.nodes.Keys == {PATH} && |e.pool.free| == 1 && e.nextId == 1
    ensures Primed(m, e)
  {
    hide Safe;
  }

  lemma FirstSubmitted(m: Model) returns (e: State)
    ensures Run(TIGHT, m, [Add([1], 1, true)]) == Some(e)
    ensures e.running == [] && e.waiting == [FIRST] && e.nextId == 1 && e.tree.nodes.Keys == {} && |e.pool.free| == 2
  {
    var e0 := Init(TIGHT, m);
    assert Run(TIGHT, m, []) == Some(e0);
    Submitted(m, [], e0, [1], 1);
    assert [] + [Add([1], 1, true)] == [Add([1], 1, true)];
    assert e0.waiting + [FIRST] == [FIRST];
    e := e0.(waiting := [FIRST], nextId := 1);
  }

  lemma FirstPlan(m: Model, e: State) returns (w: Work, c: Slice)
    requires Safe(TIGHT, m, e) && e.running == [] && e.waiting == [FIRST] && |e.pool.free| == 2
    requires e.tree.nodes.Keys == {}
    ensures Schedule(TIGHT, e) == w && w.decodes == [] && w.chunks == [c] && c == Slice(0, 0, 1, true)
    ensures w.st.running == [Entered(FIRST)] && w.st.waiting == [] && w.st.tree.nodes.Keys == {}
    ensures w.st.nextId == e.nextId && Entered(FIRST).id == c.id
  {
    hide Safe, MakeChunk, MatchBlocks, Attach, AdmitPhase, Schedule, Admit;
    c := Slice(0, 0, 1, true);
    var w0 := Work(e, 4, 0, {}, [], []);
    assert [FIRST] == [FIRST] + [];
    NoMatch(e.tree, [1]);
    OneTokenSlice(FIRST, 2);
    Admits(m, w0, FIRST, [], c);
    AdmitKeepsIds(e);
    var e1 := Admit(Attach(TIGHT, e));
    w := TakeChunk(TIGHT, w0.(st := e1), Entered(FIRST), c);
    assert [] + [Entered(FIRST)] == [Entered(FIRST)];
    NobodyLeft(w);
    OnlyAdmission(e, w);
  }

  lemma AdmitKeepsIds(e: State)
    requires e.waiting != []
    ensures Attach(TIGHT, e).waiting != [] && Admit(Attach(TIGHT, e)).nextId == e.nextId
  {
    hide MatchBlocks, MatchTree, IncrefMany;
  }

  lemma NobodyLeft(w: Work)
    requires w.st.waiting == []
    ensures AdmitPhase(TIGHT, w) == w
  {
  }

  lemma FirstFinishes(m: Model, w: Work, c: Slice, p: Pass, e: State)
    requires c == Slice(0, 0, 1, true) && w.st.running == [Entered(FIRST)]
    requires e == Commit(w.st, 0, p, AfterChunk(Entered(FIRST), c, p))
    ensures var r := AfterChunk(Entered(FIRST), c, p);
      && e.running == [r] && r.status == Finished && r.prompt == [1] && |r.output| == 1
      && r.computed == 1 && r.kv.Some?
      && e.waiting == w.st.waiting && e.tree == w.st.tree && e.nextId == w.st.nextId
  {
  }

  // ---- stall 1: a prefill without a free block, beside a block nobody uses

  const LONG := NewRequest(1, [5, 6], 1, true)

  lemma HalfSlice()
    ensures MakeChunk(TIGHT, Entered(LONG), 4, 1) == Some(Slice(1, 0, 1, false))
    ensures Fresh(LONG) && LONG.id == 1 && Entered(LONG).id == 1 && LONG.prompt == [5, 6]
  {
    CeilDivUnique(2, 1, 2);
  }

  lemma LongPlan(m: Model, e: State) returns (w: Work, c: Slice)
    requires Safe(TIGHT, m, e) && e.running == [] && e.waiting == [LONG] && |e.pool.free| == 1
    requires e.tree.nodes.Keys == {PATH}
    ensures Schedule(TIGHT, e) == w && w.decodes == [] && w.chunks == [c] && c == Slice(1, 0, 1, false)
    ensures w.st.running == [Entered(LONG)] && w.st.waiting == [] && w.st.tree.nodes.Keys == {PATH}
  {
    hide Safe, MakeChunk, MatchBlocks, Attach, AdmitPhase, Schedule, Admit;
    c := Slice(1, 0, 1, false);
    var w0 := Work(e, 4, 0, {}, [], []);
    assert [LONG] == [LONG] + [];
    NoMatch(e.tree, [5, 6]);
    HalfSlice();
    Admits(m, w0, LONG, [], c);
    AdmitKeepsIds(e);
    var e1 := Admit(Attach(TIGHT, e));
    w := TakeChunk(TIGHT, w0.(st := e1), Entered(LONG), c);
    assert [] + [Entered(LONG)] == [Entered(LONG)];
    NobodyLeft(w);
    OnlyAdmission(e, w);
  }

  lemma HalfFed(m: Model, w: Work, c: Slice, p: Pass, e: State)
    requires c == Slice(1, 0, 1, false) && w.st.running == [Entered(LONG)]
    requires e == Commit(w.st, 0, p, AfterChunk(Entered(LONG), c, p))
    ensures var r := AfterChunk(Entered(LONG), c, p);
      && e.running == [r] && !r.IsFinished() && !r.PrefillDone() && r.computed == 1 && r.kv.Some?
      && e.waiting == w.st.waiting && e.tree == w.st.tree
  {
  }

  /** Nobody has finished, so nobody is retired. */
  lemma NobodyRetires(e: State, r: Req)
    requires e.running == [r] && !r.IsFinished()
    ensures RetireFrom(TIGHT, e, 0) == e
  {
  }

  /** One block of the running request's own and one cached block are the whole pool. */
  lemma PoolIsFull(m: Model, e: State, r: Req)
    requires Safe(TIGHT, m, e) && e.running == [r] && r.computed == 1 && r.Adopted() == 0 && PagedOk(TIGHT, r)
    requires e.tree.nodes.Keys == {PATH}
    ensures e.pool.free == [] && |r.Table()| == 1 && r.Table()[0] < 2 && e.tree.nodes[PATH].block < 2
    ensures r.Table()[0] != e.tree.nodes[PATH].block
  {
    hide ShapesOk, ViewsOk, NodesOk, OutputsOk, IdsOk, TreeOk, Shaped, Tables, PagedOk;
    OneBlockTable(r);
    var a, b := r.Table()[0], e.tree.nodes[PATH].block;
    assert r in Queued(e) && PrivateOk(e, r);
    HeldMember(e, r, 0);
    assert Held(e)[a] == 1;
    assert b in NodeBlocks(e.tree.nodes);
    assert a in Held(e) && b in Held(e);
    forall c | 0 <= c < 2
      ensures c !in e.pool.free
    {
      assert c == a || c == b;
      assert e.pool.ref[c] == Held(e)[c] > 0;
    }
    FirstIsThere(e.pool.free);
  }

  lemma FullBoundary(r: Req)
    requires |r.Table()| == 1 && r.computed == 1
    ensures AtBoundary(TIGHT, r)
  {
  }

  lemma RunningPaged(m: Model, e: State, r: Req)
    requires Safe(TIGHT, m, e) && e.running == [r]
    ensures PagedOk(TIGHT, r)
  {
    hide OwnershipOk, ViewsOk, NodesOk, OutputsOk, IdsOk, MemoryOk, PagedOk;
    assert r in e.running;
  }

  /** The cached block is held by the tree alone: it could be evicted. */
  lemma CachedIsUnpinned(m: Model, e: State, r: Req)
    requires Safe(TIGHT, m, e) && e.running == [r] && e.waiting == [] && |r.Table()| == 1
    requires e.tree.nodes.Keys == {PATH} && r.Table()[0] != e.tree.nodes[PATH].block
    ensures Unpinned(CacheOf(e)) == {PATH}
  {
    hide ShapesOk, OwnershipOk, ViewsOk, NodesOk, OutputsOk, IdsOk, TreeOk, Shaped, FreeListOk;
    var b := e.tree.nodes[PATH].block;
    TablesOne(r);
    assert Queued(e) == [r];
    assert b in NodeBlocks(e.tree.nodes) && b !in Tables(Queued(e));
    assert b in Held(e) && Held(e)[b] == 1;
  }

  /**
   The oldest request is in its prefill with one position to go, every submission fits the
   pool, and a cached block that nobody uses would do; yet it never advances.
   */
  lemma PrefillStalls(m: Model) returns (e: State)
    ensures Lively(TIGHT) && AllFit(TIGHT, LONG_PROMPT) && Run(TIGHT, m, LONG_PROMPT) == Some(e)
    ensures e.running != [] && !e.running[0].PrefillDone() && e.pool.free == [] && Unpinned(CacheOf(e)) == {PATH}
    ensures Stalled(TIGHT, e) && forall n: nat :: !AdvancesIn(TIGHT, m, LONG_PROMPT, n)
  {
    hide *;
    TightIsLively();
    LongFits();
    var e0 := FirstServed(m);
    PrimedParts(m, e0);
    var events := SERVED + [Add([5, 6], 1, true)];
    LongSubmitted(m, e0);
    var e1 := e0.(waiting := [LONG], nextId := 2);
    RunBetween(TIGHT, m, events);
    BetweenParts(TIGHT, m, e1);
    var w, c := LongPlan(m, e1);
    HalfSlice();
    var p, e2 := OneSliceStep(m, e1, w, Entered(LONG), c);
    var r := AfterChunk(Entered(LONG), c, p);
    HalfFed(m, w, c, p, e2);
    NobodyRetires(e2, r);
    NextTick(TIGHT, m, events);
    e := e2;
    RunningPaged(m, e, r);
    NothingAdopted(Entered(LONG), c, p);
    PoolIsFull(m, e, r);
    FullBoundary(r);
    CachedIsUnpinned(m, e, r);
    StalledIs(TIGHT, e);
    LongIs();
    StaysStalled(m, LONG_PROMPT, e);
  }

  lemma LongIs()
    ensures LONG_PROMPT == SERVED + [Add([5, 6], 1, true)] + [Tick]
  {
  }

  lemma PrimedParts(m: Model, e: State)
    requires Primed(m, e)
    ensures e.running == [] && e.waiting == [] && e.tree.nodes.Keys == {PATH} && |e.pool.free| == 1 && e.nextId == 1
  {
    hide Safe;
  }

  lemma LongSubmitted(m: Model, e: State)
    requires Run(TIGHT, m, SERVED) == Some(e) && Primed(m, e)
    ensures Run(TIGHT, m, SERVED + [Add([5, 6], 1, true)]) == Some(e.(waiting := [LONG], nextId := 2))
  {
    hide Run, Safe;
    Submitted(m, SERVED, e, [5, 6], 1);
    assert e.waiting + [LONG] == [LONG];
  }

  lemma NothingAdopted(r: Req, c: Slice, p: Pass)
    ensures AfterChunk(r, c, p).Adopted() == r.Adopted()
    ensures Entered(LONG).Adopted() == 0
  {
  }

  lemma StaysStalled(m: Model, events: seq<Event>, e: State)
    requires Run(TIGHT, m, events) == Some(e) && e.running != [] && Stalled(TIGHT, e)
    ensures forall n: nat :: !AdvancesIn(TIGHT, m, events, n)
  {
    hide *;
    TightIsLively();
    QueuedFirst(e);
    DoomedIs(TIGHT, e);
    StuckIs(TIGHT, e);
    EverAdvancesExactlyWhen(TIGHT, m, events);
  }

  lemma OneMoreAccepted(events: seq<Event>, ev: Event)
    ensures Accepted(TIGHT, events + [ev]) ==
      Accepted(TIGHT, events) + if ev.Add? && Acceptable(TIGHT, ev.prompt, ev.maxTokens)
        then [Ticket(|Accepted(TIGHT, events)|, ev.prompt, ev.maxTokens, ev.ignoreEos)] else []
  {
    assert (events + [ev])[..|events|] == events;
  }

  lemma SmallFits(t: Ticket)
    requires |t.prompt| + t.maxTokens <= 3
    ensures FitsOne(TIGHT, t)
  {
    CeilDivUnique(Span(t), 1, Span(t));
  }

  lemma ServedFits()
    ensures forall t :: t in Accepted(TIGHT, SERVED) ==> |t.prompt| + t.maxTokens <= 3
  {
    OneMoreAccepted([], Add([1], 1, true));
    OneMoreAccepted([] + [Add([1], 1, true)], Tick);
    assert [] + [Add([1], 1, true)] + [Tick] == SERVED;
  }

  lemma LongFits()
    ensures AllFit(TIGHT, LONG_PROMPT)
  {
    ServedFits();
    OneMoreAccepted(SERVED, Add([5, 6], 1, true));
    OneMoreAccepted(SERVED + [Add([5, 6], 1, true)], Tick);
    forall t | t in Accepted(TIGHT, LONG_PROMPT)
      ensures FitsOne(TIGHT, t)
    {
      SmallFits(t);
    }
  }

  // ---- stall 2: a decode whose missing block is held by one who waits

  const DECODING := NewRequest(1, [9], 2, true)
  const SHARER := NewRequest(2, [1, 4], 1, true)

  lemma SharedSubmitted(m: Model, e: State)
    requires Run(TIGHT, m, SERVED) == Some(e) && Primed(m, e)
    ensures Run(TIGHT, m, SERVED + [Add([9], 2, true)] + [Add([1, 4], 1, true)]) ==
      Some(e.(waiting := [DECODING, SHARER], nextId := 3))
  {
    hide Run, Safe;
    Submitted(m, SERVED, e, [9], 2);
    assert e.waiting + [DECODING] == [DECODING];
    var e1 := e.(waiting := [DECODING], nextId := 2);
    Submitted(m, SERVED + [Add([9], 2, true)], e1, [1, 4], 1);
    assert e1.waiting + [SHARER] == [DECODING, SHARER];
  }

  /** The lookup of the sharer finds the cached block. */
  lemma Shares(e: State)
    requires TreeOk(e.tree) && e.tree.nodes.Keys == {PATH} && e.waiting == [SHARER] && WaitingOk(TIGHT, SHARER)
    ensures var e' := Attach(TIGHT, e);
      && e'.running == e.running && |e'.waiting| == 1 && e'.waiting[0].Table() == [e.tree.nodes[PATH].block]
      && e'.tree.nodes.Keys == {PATH} && e'.tree.nodes[PATH].block == e.tree.nodes[PATH].block
  {
    hide TreeOk, WaitingOk, HeadReplaced;
    AttachIs(TIGHT, e);
    StampedTree(TIGHT, e);
    FindsPath(e.tree);
  }

  lemma FindsPath(t: Tree)
    requires t.nodes.Keys == {PATH}
    ensures MatchBlocks(1, t, [1, 4]) == [t.nodes[PATH].block]
  {
    assert Chunks(1, [1, 4], 0) == [];
    assert [1, 4][0 * 1..1 * 1] == [1];
    assert Usable(1, [1, 4]) == PATH;
    assert PATH[..0 + 1] == PATH;
    assert Follow(t.nodes, PATH, 0) == 1;
  }

  /** The decoding request takes the last free block; the sharer waits with its lookup done. */
  lemma SharedPlan(m: Model, e: State) returns (w: Work, c: Slice)
    requires Safe(TIGHT, m, e) && e.running == [] && e.waiting == [DECODING, SHARER] && |e.pool.free| == 1
    requires e.tree.nodes.Keys == {PATH}
    ensures Schedule(TIGHT, e) == w && w.decodes == [] && w.chunks == [c] && c == Slice(1, 0, 1, true)
    ensures w.st.running == [Entered(DECODING)] && w.st.tree.nodes.Keys == {PATH}
    ensures |w.st.waiting| == 1 && w.st.waiting[0].Table() == [w.st.tree.nodes[PATH].block]
  {
    hide Safe, MakeChunk, MatchBlocks, Attach, AdmitPhase, Schedule, Admit, TreeOk, WaitingOk;
    c := Slice(1, 0, 1, true);
    var w0 := Work(e, 4, 0, {}, [], []);
    assert [DECODING, SHARER] == [DECODING] + [SHARER];
    NoMatch(e.tree, [9]);
    OneTokenSlice(DECODING, 1);
    Admits(m, w0, DECODING, [SHARER], c);
    var e1 := Admit(Attach(TIGHT, e));
    AttachSafe(TIGHT, m, e);
    AdmitSafe(TIGHT, m, Attach(TIGHT, e));
    var w1 := TakeChunk(TIGHT, w0.(st := e1), Entered(DECODING), c);
    assert [] + [Entered(DECODING)] == [Entered(DECODING)];
    CeilDivUnique(1, 1, 1);
    assert Available(TIGHT, w1) == 0 && w1.budget == 3;
    NobodyAdmitted(TIGHT, m, w1);
    SafeTreeOk(m, e1);
    WaitingHead(TIGHT, m, e1);
    Shares(e1);
    w := w1.(st := Attached(TIGHT, e1));
    OnlyAdmission(e, w);
  }

  lemma FedDecoding(m: Model, w: Work, c: Slice, p: Pass, e: State)
    requires c == Slice(1, 0, 1, true) && w.st.running == [Entered(DECODING)]
    requires e == Commit(w.st, 0, p, AfterChunk(Entered(DECODING), c, p))
    ensures var r := AfterChunk(Entered(DECODING), c, p);
      && e.running == [r] && !r.IsFinished() && r.PrefillDone() && r.computed == 1 && r.kv.Some? && r.Adopted() == 0
      && e.waiting == w.st.waiting && e.tree == w.st.tree
    ensures c.id == Entered(DECODING).id
  {
  }

  /** The running request's block and the sharer's are the whole pool. */
  lemma BothHeld(e: State, r: Req)
    requires e.running == [r] && |r.Table()| == 1 && r.Table()[0] < 2
    requires |e.waiting| == 1 && |e.waiting[0].Table()| == 1 && e.waiting[0].Table()[0] < 2
    requires r.Table()[0] != e.waiting[0].Table()[0]
    ensures Starved(TIGHT, e)
  {
    hide Tables, Lookup;
    TablesMember(e.waiting, e.waiting[0]);
    assert e.waiting[0].Table()[0] in multiset(e.waiting[0].Table());
    forall b | 0 <= b < 2
      ensures Occupied(TIGHT, e, b)
    {
      assert b == r.Table()[0] || b == e.waiting[0].Table()[0];
    }
  }

  lemma SharedFits()
    ensures AllFit(TIGHT, SHARED_PREFIX)
    ensures SHARED_PREFIX == SERVED + [Add([9], 2, true)] + [Add([1, 4], 1, true)] + [Tick]
  {
    ServedFits();
    OneMoreAccepted(SERVED, Add([9], 2, true));
    OneMoreAccepted(SERVED + [Add([9], 2, true)], Add([1, 4], 1, true));
    OneMoreAccepted(SERVED + [Add([9], 2, true)] + [Add([1, 4], 1, true)], Tick);
    forall t | t in Accepted(TIGHT, SHARED_PREFIX)
      ensures FitsOne(TIGHT, t)
    {
      SmallFits(t);
    }
  }

  /**
   The oldest request is decoding and every submission fits the pool; but its next block is
   the one that a waiting request adopted when it looked its prompt up, and it never advances.
   */
  lemma DecodeStalls(m: Model) returns (e: State)
    ensures Lively(TIGHT) && AllFit(TIGHT, SHARED_PREFIX) && Run(TIGHT, m, SHARED_PREFIX) == Some(e)
    ensures e.running != [] && e.running[0].PrefillDone() && e.pool.free == []
    ensures Stalled(TIGHT, e) && forall n: nat :: !AdvancesIn(TIGHT, m, SHARED_PREFIX, n)
  {
    hide *;
    TightIsLively();
    SharedFits();
    var e0 := FirstServed(m);
    PrimedParts(m, e0);
    var events := SERVED + [Add([9], 2, true)] + [Add([1, 4], 1, true)];
    SharedSubmitted(m, e0);
    var e1 := e0.(waiting := [DECODING, SHARER], nextId := 3);
    RunBetween(TIGHT, m, events);
    BetweenParts(TIGHT, m, e1);
    var w, c := SharedPlan(m, e1);
    ServedIs();
    DecodingIs();
    var p, e2 := OneSliceStep(m, e1, w, Entered(DECODING), c);
    var r := AfterChunk(Entered(DECODING), c, p);
    FedDecoding(m, w, c, p, e2);
    NobodyRetires(e2, r);
    NextTick(TIGHT, m, events);
    e := e2;
    RunningPaged(m, e, r);
    PoolIsFull(m, e, r);
    FullBoundary(r);
    BothHeld(e, r);
    StalledIs(TIGHT, e);
    StaysStalled(m, SHARED_PREFIX, e);
  }

  lemma DecodingIs()
    ensures Entered(DECODING).id == 1
  {
  }
}
