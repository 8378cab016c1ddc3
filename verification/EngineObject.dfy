/** The engine as an object: schedule, execute, sample, retire, and the loop that drains it. */
module EngineObject {
  import opened Options
  import opened Blocks
  import opened Decoding
  import opened Paging
  import opened SequenceViews
  import opened Radix
  import opened PrefixCache
  import opened Requests
  import opened RequestObject
  import opened Scheduling
  import opened Serving
  import opened Safety
  import opened SafetySchedule
  import opened SafetyExec
  import opened SafetyRetire
  import opened Runs
  import opened Conservation
  import opened Progress
  import opened Drain
  import opened Batch
  import opened SchedulerObject

  /** The columns of a forward pass, token by token. */
  method ComputeColumns(m: Model, view: seq<Column>, toks: seq<Token>) returns (cols: seq<Column>)
    ensures cols == Extend(m, view, toks)
  {
    cols := view;
    for j := 0 to |toks|
      invariant Extend(m, view, toks) == Extend(m, cols, toks[j..])
    {
      assert toks[j..][0] == toks[j] && toks[j..][1..] == toks[j + 1..];
      cols := cols + [m.col(cols, toks[j])];
    }
    assert toks[|toks|..] == [];
  }

  /** What a forward pass over a sequence comes to. */
  lemma ForwardIs(cfg: Config, m: Model, e: State, r: Req, start: nat, toks: seq<Token>, p: Pass)
    requires Forward(cfg, m, e, r, start, toks) == Some(p) && start <= |r.Table()| * cfg.bs
    ensures Shaped(cfg.bs, StoreOf(e)) && FreeListOk(e.pool) && InRange(StoreOf(e), r.Table()) && r.kv.Some?
    ensures toks != [] && cfg.bs > 0
    ensures var cols := Extend(m, Gather(cfg.bs, StoreOf(e), r.Table(), start), toks);
      && |cols| == start + |toks|
      && Write(cfg.bs, StoreOf(e), r.Table(), start, cols[start..]) == Written(p.store, p.table)
      && p.token == m.pick(cols[..|cols| - 1], toks[|toks| - 1])
  {
    assert CanInfer(cfg.bs, StoreOf(e), r.Table(), toks) && cfg.bs > 0;
    hide Extend, Write, Gather, Infer, Shaped, FreeListOk, InRange;
    ReadsWritten(cfg.bs, m, StoreOf(e), r.Table(), start, toks);
  }

  /** The cells a sequence has, and those of its next tokens. */
  method ReadColumns(m: Model, s: SequenceKV, toks: seq<Token>) returns (cols: seq<Column>)
    requires s.Valid() && s.length <= |s.blockTable| * s.cache.blockSize
    requires s.Capacity() == |s.blockTable| * s.cache.blockSize
    requires Shaped(s.cache.blockSize, s.cache.Value()) && InRange(s.cache.Value(), s.blockTable)
    ensures s.Valid() && s.cache.Value() == old(s.cache.Value())
    ensures cols == Extend(m, Gather(s.cache.blockSize, old(s.cache.Value()), s.blockTable, s.length), toks)
  {
    hide *;
    var view := s.Gather();
    cols := ComputeColumns(m, view, toks);
  }

  /** One forward pass over one sequence: read its cells, write the new ones, sample. */
  method Feed(m: Model, s: SequenceKV, cfg: Config, toks: seq<Token>, ghost e: State, ghost r: Req,
              ghost p: Pass) returns (token: Token)
    requires s.cache.Valid() && s.cache.blockSize == cfg.bs && StoreOf(e) == s.cache.Value()
    requires s.blockTable == r.Table() && s.length <= |r.Table()| * cfg.bs
    requires Forward(cfg, m, e, r, s.length, toks) == Some(p)
    modifies s, s.cache.allocator, s.cache.mem
    ensures s.cache.Valid() && s.cache.Value() == p.store && s.blockTable == p.table
    ensures s.length == old(s.length) + |toks| && s.numCachedPrefix == old(s.numCachedPrefix) && token == p.token
    ensures s.cache.allocator.cowCopies + |p.store.pool.free| +
      Paging.BlocksNeeded(cfg.bs, r.Table(), old(s.length) + |toks|)
      == old(s.cache.allocator.cowCopies) + |e.pool.free|
  {
    hide *;
    ForwardIs(cfg, m, e, r, s.length, toks, p);
    ViewValid(s);
    CacheValid(s);
    StorePool(e);
    var start := s.length;
    var cols := ReadColumns(m, s, toks);
    var ok := s.Write(start, cols[start..]);
    CacheValid(s);
    s.length := start + |toks|;
    token := m.pick(cols[..|cols| - 1], toks[|toks| - 1]);
  }

  lemma CacheValid(s: SequenceKV)
    requires s.Valid()
    ensures s.cache.Valid() && s.cache.Value().pool.free == s.cache.allocator.free
  {
  }

  lemma StorePool(e: State)
    ensures StoreOf(e).pool == e.pool
  {
  }

  lemma ViewValid(s: SequenceKV)
    requires s.cache.Valid() && InRange(s.cache.Value(), s.blockTable)
    ensures s.Valid() && s.Capacity() == |s.blockTable| * s.cache.blockSize
  {
  }

  /** Append a sampled token; finish on EOS or at the length limit. */
  method Emit(request: Request, token: Token)
    modifies request
    ensures request.Value() == old(request.Value()).Emit(token) && request.kv == old(request.kv)
  {
    request.AppendToken(token);
    if !request.ignoreEos && token == EOS_ID {
      request.Finish(false);
    } else if |request.output| >= request.maxTokens {
      request.Finish(false);
    }
  }

  /** The table of requests: the scheduler's, keyed by id. */
  ghost predicate Registered(requests: map<nat, Request>, own: Owner) {
    && requests == own.byId
    && forall id :: id in requests ==> requests[id].id == id && requests[id] in own.repr
  }

  lemma RunAppend(cfg: Config, m: Model, events: seq<Event>, e: State, ev: Event)
    requires cfg.bs > 0 && Run(cfg, m, events) == Some(e)
    ensures Run(cfg, m, events + [ev]) == Next(cfg, m, e, ev)
    ensures CleanRun(cfg, m, events) && (ev.Tick? ==> Clean(cfg, e)) ==> CleanRun(cfg, m, events + [ev])
  {
    hide Next, Clean;
    assert (events + [ev])[..|events + [ev]| - 1] == events;
  }

  /** However often the engine steps after these events, it undoes no cache hit. */
  ghost predicate StaysClean(cfg: Config, m: Model, events: seq<Event>)
    requires cfg.bs > 0
  {
    forall n: nat :: CleanRun(cfg, m, events + Idle(n))
  }

  /** With chunked prefill, or without a prefix cache, it never does. */
  lemma AllowedStaysClean(cfg: Config, m: Model, events: seq<Event>)
    requires Allowed(cfg)
    ensures cfg.bs > 0 && StaysClean(cfg, m, events)
  {
    hide CleanRun;
    forall n: nat
      ensures CleanRun(cfg, m, events + Idle(n))
    {
      AllowedIsClean(cfg, m, events + Idle(n));
    }
  }

  lemma StaysCleanNow(cfg: Config, m: Model, events: seq<Event>, e: State, n: nat)
    requires cfg.bs > 0 && StaysClean(cfg, m, events) && Run(cfg, m, events + Idle(n)) == Some(e)
    ensures Clean(cfg, e)
  {
    hide Clean, Run;
    var more := events + Idle(n + 1);
    assert more[..|more| - 1] == events + Idle(n);
  }

  lemma {:induction false} CleanPrefix(cfg: Config, m: Model, events: seq<Event>, k: nat)
    requires cfg.bs > 0 && CleanRun(cfg, m, events) && k <= |events|
    ensures CleanRun(cfg, m, events[..k])
    decreases |events|
  {
    hide Clean, Run;
    if k == |events| {
      assert events[..k] == events;
    } else {
      CleanPrefix(cfg, m, events[..|events| - 1], k);
      assert events[..|events| - 1][..k] == events[..k];
    }
  }

  class LLMEngine {
    const cfg: Config
    const model: Model
    const scheduler: Scheduler
    var requests: map<nat, Request>
    var steps: nat
    ghost var events: seq<Event>      // everything asked of the engine so far

    /** Between calls the objects hold the state of the run so far, and nothing was ever copied on write. */
    ghost predicate Valid()
      reads this, scheduler, scheduler.kv.allocator, scheduler.kv.mem
      reads scheduler.running, scheduler.waiting, Views(scheduler.running), Views(scheduler.waiting)
      reads scheduler.radix, if scheduler.radix == null then {} else scheduler.radix.at.Values
    {
      && scheduler.cfg == cfg && cfg.bs > 0 && scheduler.Valid()
      && CleanRun(cfg, model, events) && Run(cfg, model, events) == Some(scheduler.st)
      && Registered(requests, scheduler.own) && this !in scheduler.own.repr
      && scheduler.kv.allocator.cowCopies == 0
    }

    lemma ValidIs()
      ensures Valid() <==>
        && scheduler.cfg == cfg && cfg.bs > 0 && scheduler.Valid()
        && CleanRun(cfg, model, events) && Run(cfg, model, events) == Some(scheduler.st)
        && Registered(requests, scheduler.own) && this !in scheduler.own.repr
        && scheduler.kv.allocator.cowCopies == 0
    {
      hide Run, CleanRun, Coupled, Registered;
    }

    /** Every state the engine reaches is safe. */
    lemma Reachable()
      requires Valid()
      ensures scheduler.cfg == cfg && cfg.bs > 0 && scheduler.Valid() && CleanRun(cfg, model, events)
      ensures Safe(cfg, model, scheduler.st) && Settled(scheduler.st)
      ensures this !in scheduler.own.repr && Registered(requests, scheduler.own)
      ensures scheduler.kv.allocator.cowCopies == 0
      ensures Run(cfg, model, events) == Some(scheduler.st)
    {
      hide *;
      ValidIs();
      RunKeeps(cfg, model, events);
    }

    constructor (cfg: Config, model: Model)
      requires cfg.bs > 0
      ensures Valid() && fresh(scheduler) && fresh(scheduler.own.repr)
      ensures this.cfg == cfg && this.model == model && scheduler.st == Init(cfg, model) && requests == map[]
      ensures steps == 0 && events == []
    {
      hide *;
      var kv := new PagedKVCache(cfg.bs, cfg.numBlocks, model.blank);
      var radix: RadixCache? := null;
      if cfg.caching {
        CacheUsable(kv);
        radix := new RadixCache(cfg.bs, kv.allocator, Some(cfg.maxCached));
        radix.ValidParts();
      }
      this.cfg, this.model := cfg, model;
      if radix != null {
        radix.ValueIs([]);
      }
      var s := new Scheduler(cfg, kv, radix);
      s.Unpack();
      scheduler := s;
      requests, steps, events := map[], 0, [];
      new;
      scheduler.Repack();
      RunNothing(cfg, model);
      if radix != null {
        radix.ValueIs([]);
      }
      RegisteredNone(scheduler.own);
      InitIs(cfg, model, scheduler.st);
      ValidIs();
    }

    // ---- submission and abort

    /** Validate and queue a request; None is a malformed one, and then nothing changes. */
    method AddRequest(prompt: seq<Token>, maxTokens: int, ignoreEos: bool) returns (id: Option<nat>)
      requires Valid()
      modifies this`requests, this`events, scheduler
      ensures Valid() && events == old(events) + [Add(prompt, maxTokens, ignoreEos)]
      ensures id.Some? <==>
        && 1 <= |prompt| <= cfg.maxModelLen - maxTokens && maxTokens >= 1
        && forall t :: t in prompt ==> 0 <= t < cfg.vocab
      ensures id == if Acceptable(cfg, prompt, maxTokens) then Some(old(scheduler.st.nextId)) else None
      ensures scheduler.st == Submit(cfg, old(scheduler.st), prompt, maxTokens, ignoreEos)
      ensures old(scheduler.own.repr) <= scheduler.own.repr && fresh(scheduler.own.repr - old(scheduler.own.repr))
    {
      hide *;
      Reachable();
      RunAppend(cfg, model, events, scheduler.st, Add(prompt, maxTokens, ignoreEos));
      AddIs(cfg, model, scheduler.st, prompt, maxTokens, ignoreEos);
      AcceptableIs(cfg, prompt, maxTokens);
      scheduler.Unpack();
      events := events + [Add(prompt, maxTokens, ignoreEos)];
      scheduler.Repack();
      if prompt == [] || maxTokens <= 0 || !InVocabulary(cfg, prompt) || |prompt| + maxTokens > cfg.maxModelLen {
        ValidIs();
        return None;
      }
      scheduler.Counted();
      var request := new Request(scheduler.admitted, prompt, maxTokens, ignoreEos);
      requests := requests[request.id := request];
      scheduler.Repack();
      scheduler.AddRequest(request, model);
      NowRegistered(old(requests), old(scheduler.own), request);
      ValidIs();
      return Some(request.id);
    }

    /** Release a live request and mark it aborted; false when there is none to abort. */
    method AbortRequest(id: nat) returns (ok: bool)
      requires Valid()
      modifies this`events, scheduler, scheduler.own.repr
      ensures Valid() && events == old(events) + [Cancel(id)] && requests == old(requests)
      ensures scheduler.st == Serving.Abort(old(scheduler.st), id)
      ensures ok <==> id in requests && old(id in requests && !requests[id].IsFinished())
      ensures ok ==> requests[id].status == Aborted
    {
      hide *;
      Reachable();
      RunAppend(cfg, model, events, scheduler.st, Cancel(id));
      CancelIs(cfg, model, scheduler.st, id);
      scheduler.Unpack();
      SafeIds(cfg, model, scheduler.st);
      AbortGone(scheduler.st, id);
      events := events + [Cancel(id)];
      scheduler.Repack();
      if id !in requests || requests[id].IsFinished() {
        Unqueued(id);
        ValidIs();
        return false;
      }
      RegisteredAt(requests, scheduler.own, id);
      var request := requests[id];
      var found := scheduler.Abort(id, model);
      scheduler.Unpack();
      NotAmong(id);
      request.Finish(true);
      scheduler.Repack();
      ValidIs();
      return true;
    }

    /** A finished or unknown request is in no queue. */
    lemma Unqueued(id: nat)
      requires scheduler.Valid() && Registered(requests, scheduler.own) && Safe(cfg, model, scheduler.st)
      requires Settled(scheduler.st)
      requires id !in requests || requests[id].IsFinished()
      ensures Serving.Abort(scheduler.st, id) == scheduler.st
    {
      hide Safe, Settled, Views;
      scheduler.Unpack();
      NobodyFinished(cfg, model, scheduler.st);
      forall j | 0 <= j < |scheduler.running|
        ensures scheduler.st.running[j].id != id
      {
        HoldsParts(scheduler.own, scheduler.running[j], scheduler.st.running[j]);
      }
      forall j | 0 <= j < |scheduler.waiting|
        ensures scheduler.st.waiting[j].id != id
      {
        HoldsParts(scheduler.own, scheduler.waiting[j], scheduler.st.waiting[j]);
      }
      AbortNobody(scheduler.st, id);
    }

    /** The record with this id is in no queue any more. */
    lemma NotAmong(id: nat)
      requires scheduler.Valid() && Find(scheduler.st.waiting, id) == |scheduler.st.waiting|
      requires Find(scheduler.st.running, id) == |scheduler.st.running|
      ensures forall j :: 0 <= j < |scheduler.running| ==> scheduler.running[j].id != id
      ensures forall j :: 0 <= j < |scheduler.waiting| ==> scheduler.waiting[j].id != id
    {
      hide Views;
    }

    // ---- executing a plan

    /** The request a plan names, at its place in the running list. */
    lemma InRunning(request: Request, i: nat)
      requires scheduler.Valid() && i < |scheduler.st.running| && scheduler.st.running[i].id == request.id
      requires request.id in scheduler.own.byId && scheduler.own.byId[request.id] == request
      ensures i < |scheduler.running| && scheduler.running[i] == request && scheduler.Stands(request, i)
      ensures Holds(scheduler.own, request, scheduler.st.running[i])
      ensures i < |Queued(scheduler.st)| && Queued(scheduler.st)[i] == scheduler.st.running[i]
    {
      hide Views;
      HoldsParts(scheduler.own, scheduler.running[i], scheduler.st.running[i]);
    }

    /** Feed tokens to the running request at index i. */
    method FeedRequest(request: Request, toks: seq<Token>, ghost i: nat, ghost p: Pass) returns (token: Token)
      requires scheduler.cfg == cfg && cfg.bs > 0 && scheduler.Valid() && Distinct(Queued(scheduler.st))
      requires i < |scheduler.st.running| && scheduler.st.running[i].id == request.id
      requires request.id in scheduler.own.byId && scheduler.own.byId[request.id] == request
      requires var r := scheduler.st.running[i];
        r.kv.Some? && r.kv.value.length == r.computed <= |r.Table()| * cfg.bs
        && Forward(cfg, model, scheduler.st, r, r.computed, toks) == Some(p)
        && |p.store.pool.free| == |scheduler.st.pool.free| - Need(cfg, r, r.computed + |toks|)
      modifies scheduler.own.repr
      ensures unchanged(scheduler) && scheduler.OthersHold(i) && scheduler.Stands(request, i)
      ensures var r := scheduler.st.running[i];
        Holds(scheduler.own, request, r.(kv := Some(SeqKV(p.table, r.computed + |toks|, r.Adopted()))))
      ensures scheduler.Memory(scheduler.own, p.store.pool, p.store.mem)
      ensures scheduler.Prefixes(scheduler.own, scheduler.st.tree)
      ensures token == p.token
      ensures scheduler.kv.allocator.cowCopies == old(scheduler.kv.allocator.cowCopies)
    {
      hide *;
      ghost var st, r := scheduler.st, scheduler.st.running[i];
      scheduler.ValidIs();
      scheduler.MemoryIs(st.pool, st.mem);
      InRunning(request, i);
      scheduler.Standing(request, i);
      HoldsParts(scheduler.own, request, r);
      NeedFor(cfg, r, r.computed + |toks|);
      CacheReady(scheduler, st, cfg);
      token := Feed(model, request.kv, cfg, toks, st, r, p);
      scheduler.OthersStill(i);
      MemoryStays(scheduler, p.store);
      FedHolds(scheduler.own, request, r, p.table, r.computed + |toks|);
    }

    /** The running request at index i has changed as the pass says: take the new state. */
    method Commit(request: Request, ghost i: nat, ghost p: Pass, ghost r: Req)
      requires scheduler.OthersHold(i) && scheduler.Stands(request, i) && Holds(scheduler.own, request, r)
      requires i < |scheduler.st.running| && scheduler.st.nextId == scheduler.admitted
      requires scheduler !in scheduler.own.repr
      requires scheduler.Memory(scheduler.own, p.store.pool, p.store.mem)
      requires scheduler.Prefixes(scheduler.own, scheduler.st.tree)
      modifies scheduler`st
      ensures scheduler.Valid() && scheduler.st == Serving.Commit(old(scheduler.st), i, p, r)
    {
      hide *;
      ghost var rs, ws := scheduler.st.running, scheduler.st.waiting;
      scheduler.OthersStill(i);
      scheduler.StandsIs(request, i);
      CommitParts(scheduler.st, i, p, r);
      scheduler.st := Serving.Commit(scheduler.st, i, p, r);
      scheduler.Repack();
    }

    /** One prefill chunk of the plan; the last chunk of a fresh prompt samples a token. */
    method RunChunk(c: PrefillChunk, ghost decodes: seq<nat>, ghost chunks: seq<Slice>)
      requires scheduler.cfg == cfg && cfg.bs > 0 && scheduler.Valid() && Safe(cfg, model, scheduler.st)
      requires Executable(cfg, scheduler.st, decodes, chunks) && chunks != [] && chunks[0] == SliceOf(c)
      requires c.request.id in scheduler.own.byId && scheduler.own.byId[c.request.id] == c.request
      modifies scheduler`st, scheduler.own.repr
      ensures scheduler.Valid() && ExecChunk(cfg, model, old(scheduler.st), SliceOf(c)) == Some(scheduler.st)
      ensures scheduler.kv.allocator.cowCopies == old(scheduler.kv.allocator.cowCopies)
    {
      hide *;
      ghost var st, i := scheduler.st, Find(scheduler.st.running, SliceOf(c).id);
      SliceIs(c);
      SafeIds(cfg, model, st);
      FirstChunk(cfg, st, decodes, chunks);
      ghost var p, more := ChunkPass(cfg, model, st, i, SliceOf(c));
      ghost var r := st.running[i];
      FreeAfter(cfg, model, st, i, ChunkFeed(r, SliceOf(c)), p, more);
      ExecChunkIs(cfg, model, st, SliceOf(c), i, p);
      scheduler.Unpack();
      InRunning(c.request, i);
      scheduler.Standing(c.request, i);
      HoldsParts(scheduler.own, c.request, r);
      SafeLength(cfg, model, st, i);
      var request := c.request;
      var toks := request.Value().PrefillTokens();
      FeedIs(r, SliceOf(c));
      var token := FeedRequest(request, toks[c.startPos..c.startPos + c.numTokens], i, p);
      ghost var r1 := r.(kv := Some(SeqKV(p.table, c.startPos + c.numTokens, r.Adopted())));
      scheduler.OthersStill(i);
      HoldsParts(scheduler.own, request, r1);
      AdvanceChunk(request, c, token, r, p);
      scheduler.OthersStill(i);
      HoldsIs(scheduler.own, request, AfterChunk(r, SliceOf(c), p));
      Commit(request, i, p, AfterChunk(r, SliceOf(c), p));
    }

    /** The request after its pass: position, phase, and a first token when the prompt is done. */
    method AdvanceChunk(request: Request, c: PrefillChunk, token: Token, ghost r: Req, ghost p: Pass)
      requires request.Value() == r.(kv := Some(SeqKV(p.table, c.startPos + c.numTokens, r.Adopted())))
      requires token == p.token
      modifies request
      ensures request.Value() == AfterChunk(r, SliceOf(c), p) && request.kv == old(request.kv)
    {
      request.SetComputed(c.startPos + c.numTokens);
      if c.isFinalChunk {
        request.SetStatus(Running);
        if |request.output| == 0 {
          Emit(request, token);
        }
      }
    }

    /** One sequence of the decode batch: feed its last token, sample the next. */
    method RunDecode(request: Request, ghost ids: seq<nat>)
      requires scheduler.cfg == cfg && cfg.bs > 0 && scheduler.Valid() && Safe(cfg, model, scheduler.st)
      requires Executable(cfg, scheduler.st, ids, []) && ids != [] && ids[0] == request.id
      requires request.id in scheduler.own.byId && scheduler.own.byId[request.id] == request
      modifies scheduler`st, scheduler.own.repr
      ensures scheduler.Valid() && ExecDecode(cfg, model, old(scheduler.st), request.id) == Some(scheduler.st)
      ensures scheduler.kv.allocator.cowCopies == old(scheduler.kv.allocator.cowCopies)
    {
      hide *;
      ghost var st, i := scheduler.st, Find(scheduler.st.running, request.id);
      SafeIds(cfg, model, st);
      FirstDecode(cfg, st, ids);
      ghost var p, more := DecodePass(cfg, model, st, i);
      ghost var r := st.running[i];
      ExecDecodeIs(cfg, model, st, request.id, i, p);
      scheduler.Unpack();
      InRunning(request, i);
      scheduler.Standing(request, i);
      HoldsParts(scheduler.own, request, r);
      SafeLength(cfg, model, st, i);
      var last := request.Value().LastToken();
      var token := FeedRequest(request, [last], i, p);
      ghost var r1 := r.(kv := Some(SeqKV(p.table, r.computed + 1, r.Adopted())));
      scheduler.OthersStill(i);
      HoldsParts(scheduler.own, request, r1);
      AdvanceDecode(request, token, r, p);
      scheduler.OthersStill(i);
      HoldsIs(scheduler.own, request, AfterDecode(r, p));
      Commit(request, i, p, AfterDecode(r, p));
    }

    method AdvanceDecode(request: Request, token: Token, ghost r: Req, ghost p: Pass)
      requires request.Value() == r.(kv := Some(SeqKV(p.table, r.computed + 1, r.Adopted()))) && token == p.token
      modifies request
      ensures request.Value() == AfterDecode(r, p) && request.kv == old(request.kv)
    {
      request.SetComputed(request.computed + 1);
      Emit(request, token);
    }

    /** The prefills of a plan, chunk by chunk. */
    method RunChunks(plan: Plan)
      requires scheduler.cfg == cfg && cfg.bs > 0 && scheduler.Valid() && Safe(cfg, model, scheduler.st)
      requires Known(scheduler.own, plan)
      requires Executable(cfg, scheduler.st, IdsOf(plan.decodes), Slices(plan.chunks))
      modifies scheduler`st, scheduler.own.repr
      ensures scheduler.Valid() && ExecChunks(cfg, model, old(scheduler.st), Slices(plan.chunks)) == Some(scheduler.st)
      ensures Safe(cfg, model, scheduler.st) && Executable(cfg, scheduler.st, IdsOf(plan.decodes), [])
      ensures scheduler.kv.allocator.cowCopies == old(scheduler.kv.allocator.cowCopies)
    {
      hide *;
      ghost var e, ids, cs := scheduler.st, IdsOf(plan.decodes), Slices(plan.chunks);
      scheduler.Unpack();
      SlicesAre(plan.chunks);
      assert cs[0..] == cs;
      for k := 0 to |plan.chunks|
        invariant scheduler.Valid() && Safe(cfg, model, scheduler.st) && scheduler !in scheduler.own.repr
        invariant Executable(cfg, scheduler.st, ids, cs[k..])
        invariant ExecChunks(cfg, model, e, cs) == ExecChunks(cfg, model, scheduler.st, cs[k..])
        invariant scheduler.kv.allocator.cowCopies == old(scheduler.kv.allocator.cowCopies)
      {
        ghost var e', _ := ChunkRuns(cfg, model, scheduler.st, ids, cs[k..]);
        assert cs[k..][0] == cs[k] && cs[k..][1..] == cs[k + 1..];
        ChunksUnfold(cfg, model, scheduler.st, cs[k..]);
        KnownAt(scheduler.own, plan, k);
        RunChunk(plan.chunks[k], ids, cs[k..]);
      }
      assert cs[|plan.chunks|..] == [];
      ChunksUnfold(cfg, model, scheduler.st, []);
    }

    /** The decodes of a plan, sequence by sequence. */
    method RunDecodes(plan: Plan)
      requires scheduler.cfg == cfg && cfg.bs > 0 && scheduler.Valid() && Safe(cfg, model, scheduler.st)
      requires Known(scheduler.own, plan)
      requires Executable(cfg, scheduler.st, IdsOf(plan.decodes), [])
      modifies scheduler`st, scheduler.own.repr
      ensures scheduler.Valid() && ExecDecodes(cfg, model, old(scheduler.st), IdsOf(plan.decodes)) == Some(scheduler.st)
      ensures Safe(cfg, model, scheduler.st)
      ensures scheduler.kv.allocator.cowCopies == old(scheduler.kv.allocator.cowCopies)
    {
      hide *;
      ghost var e, ids := scheduler.st, IdsOf(plan.decodes);
      scheduler.Unpack();
      IdsOfAre(plan.decodes);
      assert ids[0..] == ids;
      for k := 0 to |plan.decodes|
        invariant scheduler.Valid() && Safe(cfg, model, scheduler.st) && scheduler !in scheduler.own.repr
        invariant Executable(cfg, scheduler.st, ids[k..], [])
        invariant ExecDecodes(cfg, model, e, ids) == ExecDecodes(cfg, model, scheduler.st, ids[k..])
        invariant scheduler.kv.allocator.cowCopies == old(scheduler.kv.allocator.cowCopies)
      {
        ghost var e', _ := DecodeRuns(cfg, model, scheduler.st, ids[k..]);
        assert ids[k..][0] == ids[k] && ids[k..][1..] == ids[k + 1..];
        DecodesUnfold(cfg, model, scheduler.st, ids[k..]);
        KnownDecode(scheduler.own, plan, k);
        RunDecode(plan.decodes[k], ids[k..]);
      }
      assert ids[|plan.decodes|..] == [];
      DecodesUnfold(cfg, model, scheduler.st, []);
    }

    /** Retire whoever has finished, in the order they run; what they generated goes out. */
    method RetireFinished() returns (outputs: seq<EngineOutput>)
      requires scheduler.cfg == cfg && cfg.bs > 0 && scheduler.Valid() && Safe(cfg, model, scheduler.st)
      modifies scheduler, scheduler.own.repr
      ensures scheduler.Valid() && scheduler.st == RetireFrom(cfg, old(scheduler.st), 0)
      ensures Delivered(old(scheduler.st).done, scheduler.st.done, outputs)
      ensures scheduler.own == old(scheduler.own).(repr := scheduler.own.repr)
      ensures old(scheduler.own.repr) <= scheduler.own.repr && fresh(scheduler.own.repr - old(scheduler.own.repr))
      ensures scheduler.kv.allocator.cowCopies == old(scheduler.kv.allocator.cowCopies)
    {
      hide *;
      ghost var e := scheduler.st;
      outputs := [];
      DeliveredNothing(e.done);
      var i := 0;
      scheduler.SizesMatch();
      while i < |scheduler.running|
        invariant i <= |scheduler.running| == |scheduler.st.running| && scheduler.Valid()
        invariant Safe(cfg, model, scheduler.st)
        invariant RetireFrom(cfg, e, 0) == RetireFrom(cfg, scheduler.st, i)
        invariant Delivered(e.done, scheduler.st.done, outputs)
        invariant scheduler.own == old(scheduler.own).(repr := scheduler.own.repr)
        invariant old(scheduler.own.repr) <= scheduler.own.repr && fresh(scheduler.own.repr - old(scheduler.own.repr))
        invariant scheduler.kv.allocator.cowCopies == old(scheduler.kv.allocator.cowCopies)
        decreases |scheduler.running| - i
      {
        RetireUnfold(cfg, scheduler.st, i);
        RunningRecord(i);
        var request := scheduler.running[i];
        if request.IsFinished() {
          DeliveredOne(e.done, scheduler.st.done, outputs, scheduler.st.running[i]);
          outputs := outputs + [EngineOutput(request.id, request.output)];
          RetireSafe(cfg, model, scheduler.st, i);
          ExceptShorter(scheduler.running, i);
          scheduler.Retire(request, i, model);
          scheduler.SizesMatch();
        } else {
          i := i + 1;
        }
      }
      RetireUnfold(cfg, scheduler.st, i);
    }

    lemma RunningRecord(i: nat)
      requires scheduler.Valid() && i < |scheduler.running|
      ensures i < |scheduler.st.running| && scheduler !in scheduler.own.repr
      ensures scheduler.running[i].IsFinished() == scheduler.st.running[i].IsFinished()
      ensures scheduler.running[i].id == scheduler.st.running[i].id
      ensures scheduler.running[i].output == scheduler.st.running[i].output
    {
      hide Views;
      scheduler.Unpack();
      HoldsParts(scheduler.own, scheduler.running[i], scheduler.st.running[i]);
    }

    /** One iteration: schedule, prefill, decode, retire. */
    method Step() returns (outputs: seq<EngineOutput>)
      requires Valid() && Clean(cfg, scheduler.st)
      modifies this`steps, this`events, scheduler, scheduler.own.repr
      ensures Valid() && events == old(events) + [Tick] && requests == old(requests) && steps == old(steps) + 1
      ensures Serving.Step(cfg, model, old(scheduler.st)) == Some(scheduler.st)
      ensures Delivered(old(scheduler.st).done, scheduler.st.done, outputs)
      ensures old(scheduler.own.repr) <= scheduler.own.repr && fresh(scheduler.own.repr - old(scheduler.own.repr))
    {
      hide *;
      ghost var e := scheduler.st;
      Reachable();
      ghost var _, e' := StepKeeps(cfg, model, e);
      ScheduleIsExecutable(cfg, model, e);
      ScheduleDone(cfg, e);
      RunAppend(cfg, model, events, e, Tick);
      TickIs(cfg, model, e);
      var plan := scheduler.Schedule(model);
      WorkIs(plan, scheduler.st);
      WorkItems(plan, scheduler.st);
      PlanEmpty(plan, scheduler.st);
      StepUnfold(cfg, model, e);
      outputs := [];
      DeliveredNothing(e.done);
      if plan.decodes != [] || plan.chunks != [] {
        ghost var w := scheduler.st;
        ghost var e1, e2 := PlanRuns(cfg, model, w, IdsOf(plan.decodes), Slices(plan.chunks));
        EvolvedQueues(w, e2);
        scheduler.Unpack();
        RunChunks(plan);
        scheduler.Unpack();
        RunDecodes(plan);
        outputs := RetireFinished();
      }
      scheduler.Unpack();
      Reregistered(requests, old(scheduler.own), scheduler.own);
      steps := steps + 1;
      events := events + [Tick];
      scheduler.Repack();
      ValidIs();
    }

    /** Queue a batch of prompts under consecutive ids; false is a malformed prompt. */
    method SubmitAll(prompts: seq<seq<Token>>, maxTokens: int, ignoreEos: bool) returns (ids: seq<nat>, ok: bool)
      requires Valid()
      modifies this`requests, this`events, scheduler
      ensures Valid()
      ensures ok <==> forall p :: p in prompts ==> Acceptable(cfg, p, maxTokens)
      ensures ok ==>
        && events == old(events) + Adds(prompts, maxTokens, ignoreEos) && scheduler.st.done == old(scheduler.st.done)
        && |ids| == |prompts| && forall i :: 0 <= i < |ids| ==> ids[i] == old(scheduler.st.nextId) + i
      ensures old(scheduler.own.repr) <= scheduler.own.repr && fresh(scheduler.own.repr - old(scheduler.own.repr))
    {
      hide *;
      ids := [];
      AddsNone(events, maxTokens, ignoreEos);
      assert prompts[..0] == [];
      for k := 0 to |prompts|
        invariant Valid() && events == old(events) + Adds(prompts[..k], maxTokens, ignoreEos)
        invariant scheduler.st.done == old(scheduler.st.done) && scheduler.st.nextId == old(scheduler.st.nextId) + k
        invariant |ids| == k && forall i :: 0 <= i < k ==> ids[i] == old(scheduler.st.nextId) + i
        invariant forall p :: p in prompts[..k] ==> Acceptable(cfg, p, maxTokens)
        invariant old(scheduler.own.repr) <= scheduler.own.repr && fresh(scheduler.own.repr - old(scheduler.own.repr))
      {
        SubmitIs(cfg, scheduler.st, prompts[k], maxTokens, ignoreEos);
        AddsMore(old(events), prompts, k, maxTokens, ignoreEos);
        assert prompts[k] in prompts;
        assert prompts[..k + 1] == prompts[..k] + [prompts[k]];
        var id := AddRequest(prompts[k], maxTokens, ignoreEos);
        if id.None? {
          return ids, false;
        }
        ids := ids + [id.value];
      }
      assert prompts[..|prompts|] == prompts;
      return ids, true;
    }

    /** Step until the queues are empty or the step limit is reached; what finished goes into the table. */
    method Drive(maxSteps: nat) returns (final: map<nat, seq<Token>>, n: nat)
      requires Valid() && StaysClean(cfg, model, events)
      modifies this`steps, this`events, scheduler, scheduler.own.repr
      ensures Valid() && events == old(events) + Idle(n) && n <= maxSteps
      ensures n < maxSteps ==> scheduler.st.running == [] && scheduler.st.waiting == []
      ensures old(scheduler.st.done) <= scheduler.st.done
      ensures Finals(final, |old(scheduler.st.done)|, scheduler.st.done)
      ensures Progressive(cfg) && AllFit(cfg, old(events)) ==> n <= Weight(Accepted(cfg, old(events)))
    {
      hide *;
      final := map[];
      n := 0;
      ghost var base, done := |scheduler.st.done|, scheduler.st.done;
      FinalsNone(done);
      IdleNone(events);
      SchedulerSizes();
      while (scheduler.waiting != [] || scheduler.running != []) && n < maxSteps
        invariant Valid() && events == old(events) + Idle(n) && n <= maxSteps
        invariant |scheduler.running| == |scheduler.st.running| && |scheduler.waiting| == |scheduler.st.waiting|
        invariant done <= scheduler.st.done && Finals(final, base, scheduler.st.done)
        invariant Progressive(cfg) && AllFit(cfg, old(events)) ==> n <= Weight(Accepted(cfg, old(events)))
        invariant old(scheduler.own.repr) <= scheduler.own.repr && fresh(scheduler.own.repr - old(scheduler.own.repr))
      {
        ghost var before := scheduler.st.done;
        NotDrained(old(events), n);
        Reachable();
        StaysCleanNow(cfg, model, old(events), scheduler.st, n);
        var outputs := Step();
        DeliveredParts(before, scheduler.st.done, outputs);
        IdleMore(old(events), n);
        ghost var after := scheduler.st.done;
        for j := 0 to |outputs|
          invariant Valid() && scheduler.st.done == after && events == old(events) + Idle(n + 1)
          invariant old(scheduler.own.repr) <= scheduler.own.repr && fresh(scheduler.own.repr - old(scheduler.own.repr))
          invariant Finals(final, base, after[..|before| + j])
        {
          FinalsMore(final, base, after, |before| + j);
          final := final[outputs[j].id := outputs[j].output];
        }
        n := n + 1;
        SchedulerSizes();
      }
    }

    lemma SchedulerSizes()
      requires Valid()
      ensures |scheduler.running| == |scheduler.st.running| && |scheduler.waiting| == |scheduler.st.waiting|
    {
      hide *;
      Reachable();
      scheduler.SizesMatch();
    }

    /** While somebody is queued the bound has not been reached. */
    lemma NotDrained(start: seq<Event>, n: nat)
      requires Valid() && events == start + Idle(n)
      requires scheduler.st.running != [] || scheduler.st.waiting != []
      ensures Progressive(cfg) && AllFit(cfg, start) ==> n < Weight(Accepted(cfg, start))
    {
      hide *;
      Reachable();
      if Progressive(cfg) && AllFit(cfg, start) {
        if n >= Weight(Accepted(cfg, start)) {
          Drains(cfg, model, start, n);
        }
      }
    }

    /** After a batch has drained, its table holds plain decoding of every prompt. */
    lemma AllRecorded(start: seq<Event>, prompts: seq<seq<Token>>, maxTokens: int, ignoreEos: bool, n: nat,
                      final: map<nat, seq<Token>>, base: nat)
      requires Valid() && events == start + Adds(prompts, maxTokens, ignoreEos) + Idle(n)
      requires prompts != [] ==> maxTokens > 0
      requires forall p :: p in prompts ==> Acceptable(cfg, p, maxTokens)
      requires scheduler.st.running == [] && scheduler.st.waiting == []
      requires Run(cfg, model, start).Some? && base <= |scheduler.st.done|
      requires Run(cfg, model, start).value.done == scheduler.st.done[..base]
      requires Finals(final, base, scheduler.st.done)
      ensures forall i :: 0 <= i < |prompts| ==>
        Answered(model, prompts[i], maxTokens, ignoreEos, final, Run(cfg, model, start).value.nextId + i)
    {
      hide *;
      Reachable();
      forall i | 0 <= i < |prompts|
        ensures Answered(model, prompts[i], maxTokens, ignoreEos, final, Run(cfg, model, start).value.nextId + i)
      {
        RecordedOne(cfg, model, start, prompts, maxTokens, ignoreEos, n, scheduler.st, final, base, i);
      }
    }

    /**
     The batch call: submit everything, step until drained, return the outputs in order.
     None is a malformed prompt or a limit on steps that was reached. What comes back is
     plain one-request decoding of each prompt, and the limit is not reached when it
     exceeds the sum of prompt_len + max_tokens - 1.
     */
    method Generate(prompts: seq<seq<Token>>, maxTokens: int, ignoreEos: bool,
                    maxSteps: nat) returns (r: Option<seq<seq<Token>>>)
      requires Valid() && StaysClean(cfg, model, events + Adds(prompts, maxTokens, ignoreEos))
      modifies this`requests, this`steps, this`events, scheduler, scheduler.own.repr
      ensures Valid()
      ensures r.Some? ==> forall p :: p in prompts ==> Acceptable(cfg, p, maxTokens)
      ensures r.Some? ==> Decoded(model, prompts, maxTokens, ignoreEos, r.value)
      ensures
        && Progressive(cfg) && (forall p :: p in prompts ==> Acceptable(cfg, p, maxTokens))
        && AllFit(cfg, old(events) + Adds(prompts, maxTokens, ignoreEos))
        && Weight(Accepted(cfg, old(events) + Adds(prompts, maxTokens, ignoreEos))) < maxSteps
        ==> r.Some?
    {
      hide *;
      ghost var before, e0 := events, scheduler.st;
      Reachable();
      var ids, ok := SubmitAll(prompts, maxTokens, ignoreEos);
      if !ok {
        return None;
      }
      ghost var queued, base := events, |scheduler.st.done|;
      var final, n := Drive(maxSteps);
      if n >= maxSteps {
        return None;
      }
      Reachable();
      if prompts != [] {
        AcceptableIs(cfg, prompts[0], maxTokens);
      }
      AllRecorded(before, prompts, maxTokens, ignoreEos, n, final, base);
      var outputs := [];
      DecodedNone(model, maxTokens, ignoreEos);
      assert prompts[..0] == [];
      for i := 0 to |ids|
        invariant Valid()
        invariant Decoded(model, prompts[..i], maxTokens, ignoreEos, outputs)
      {
        DecodedMore(model, prompts, maxTokens, ignoreEos, outputs, i);
        AnsweredIs(model, prompts[i], maxTokens, ignoreEos, final, ids[i]);
        if ids[i] in final {
          outputs := outputs + [final[ids[i]]];
        }
      }
      assert prompts[..|ids|] == prompts;
      return Some(outputs);
    }
  }

  /** A request that has finished, with what it generated. */
  datatype EngineOutput = EngineOutput(id: nat, output: seq<Token>)

  /** The history has grown by the outputs' records. */
  ghost predicate Delivered(before: seq<Req>, after: seq<Req>, outputs: seq<EngineOutput>) {
    && |after| == |before| + |outputs| && before <= after
    && forall i :: 0 <= i < |outputs| ==> outputs[i] == EngineOutput(after[|before| + i].id, after[|before| + i].output)
  }

  lemma DeliveredNothing(done: seq<Req>)
    ensures Delivered(done, done, [])
  {
  }

  lemma DeliveredOne(before: seq<Req>, after: seq<Req>, outputs: seq<EngineOutput>, r: Req)
    requires Delivered(before, after, outputs)
    ensures Delivered(before, after + [r.(kv := None)], outputs + [EngineOutput(r.id, r.output)])
  {
  }

  lemma RetireUnfold(cfg: Config, e: State, i: nat)
    requires cfg.bs > 0 && i <= |e.running|
    ensures i == |e.running| ==> RetireFrom(cfg, e, i) == e
    ensures i < |e.running| && e.running[i].IsFinished() ==>
      && RetireFrom(cfg, e, i) == RetireFrom(cfg, Serving.Retire(cfg, e, i), i)
      && i <= |Serving.Retire(cfg, e, i).running|
    ensures i < |e.running| && !e.running[i].IsFinished() ==> RetireFrom(cfg, e, i) == RetireFrom(cfg, e, i + 1)
  {
    hide Serving.CommitPrefix;
    CommitRunning(cfg, e, i);
  }

  lemma CommitRunning(cfg: Config, e: State, i: nat)
    requires cfg.bs > 0
    ensures i < |e.running| ==> Serving.CommitPrefix(cfg, e, e.running[i]).running == e.running
  {
    hide Insert;
  }

  lemma ExceptShorter<T>(q: seq<T>, i: nat)
    requires i < |q|
    ensures |Except(q, i)| == |q| - 1
  {
  }

  lemma TickIs(cfg: Config, m: Model, e: State)
    requires cfg.bs > 0
    ensures Next(cfg, m, e, Tick) == Serving.Step(cfg, m, e)
  {
    hide Serving.Step;
  }

  lemma StepUnfold(cfg: Config, m: Model, e: State)
    requires cfg.bs > 0
    ensures var w := Schedule(cfg, e);
      if Empty(w) then Serving.Step(cfg, m, e) == Some(w.st)
      else
        forall e1, e2 ::
          ExecChunks(cfg, m, w.st, w.chunks) == Some(e1) && ExecDecodes(cfg, m, e1, w.decodes) == Some(e2) ==>
            Serving.Step(cfg, m, e) == Some(RetireFrom(cfg, e2, 0))
  {
    hide Schedule, ExecChunks, ExecDecodes, RetireFrom;
  }

  lemma WorkItems(p: Plan, e: State)
    ensures WorkOf(p, e).decodes == IdsOf(p.decodes) && WorkOf(p, e).chunks == Slices(p.chunks)
  {
  }

  lemma Reregistered(requests: map<nat, Request>, own: Owner, own': Owner)
    requires Registered(requests, own) && own'.byId == own.byId && own.repr <= own'.repr
    ensures Registered(requests, own')
  {
  }

  lemma SlicesAre(cs: seq<PrefillChunk>)
    ensures |Slices(cs)| == |cs| && forall i :: 0 <= i < |cs| ==> Slices(cs)[i] == SliceOf(cs[i])
  {
  }

  lemma IdsOfAre(q: seq<Request>)
    ensures |IdsOf(q)| == |q| && forall i :: 0 <= i < |q| ==> IdsOf(q)[i] == q[i].id
  {
  }

  lemma KnownAt(own: Owner, plan: Plan, k: nat)
    requires Known(own, plan) && k < |plan.chunks|
    ensures plan.chunks[k].request.id in own.byId && own.byId[plan.chunks[k].request.id] == plan.chunks[k].request
  {
    assert plan.chunks[k] in plan.chunks;
  }

  lemma KnownDecode(own: Owner, plan: Plan, k: nat)
    requires Known(own, plan) && k < |plan.decodes|
    ensures plan.decodes[k].id in own.byId && own.byId[plan.decodes[k].id] == plan.decodes[k]
  {
    assert plan.decodes[k] in plan.decodes;
  }

  lemma ChunksUnfold(cfg: Config, m: Model, e: State, cs: seq<Slice>)
    ensures cs == [] ==> ExecChunks(cfg, m, e, cs) == Some(e)
    ensures cs != [] && ExecChunk(cfg, m, e, cs[0]).Some? ==>
      ExecChunks(cfg, m, e, cs) == ExecChunks(cfg, m, ExecChunk(cfg, m, e, cs[0]).value, cs[1..])
  {
    hide ExecChunk;
  }

  lemma DecodesUnfold(cfg: Config, m: Model, e: State, ids: seq<nat>)
    ensures ids == [] ==> ExecDecodes(cfg, m, e, ids) == Some(e)
    ensures ids != [] && ExecDecode(cfg, m, e, ids[0]).Some? ==>
      ExecDecodes(cfg, m, e, ids) == ExecDecodes(cfg, m, ExecDecode(cfg, m, e, ids[0]).value, ids[1..])
  {
    hide ExecDecode;
  }

  lemma FedHolds(own: Owner, q: Request, r: Req, table: seq<nat>, total: nat)
    requires q in own.repr && q.id in own.byId && own.byId[q.id] == q && r.kv.Some?
    requires q.kv != null && q.kv in own.repr && q.kv.cache == own.cache && q.kv.owner == q.id
    requires r.(kv := None) == Req(q.id, q.prompt, q.maxTokens, q.ignoreEos, q.status, q.output, None, q.computed)
    requires r.kv == Some(ViewOf(q.kv.cache.blockSize, r.Table(), r.kv.value.length, q.kv.numCachedPrefix))
    requires q.kv.blockTable == table && q.kv.length == total
    ensures Holds(own, q, r.(kv := Some(SeqKV(table, total, r.Adopted()))))
  {
  }

  lemma MemoryStays(s: Scheduler, store: Store)
    requires s.kv.Valid() && s.kv.Value() == store && s.own.cache == s.kv && s.kv.allocator in s.own.repr
    requires s.kv.mem in s.own.repr
    requires s.kv.blockSize == s.cfg.bs && s.kv.allocator.numBlocks == s.cfg.numBlocks
    ensures s.Memory(s.own, store.pool, store.mem)
  {
  }

  lemma RunNothing(cfg: Config, m: Model)
    requires cfg.bs > 0
    ensures Run(cfg, m, []) == Some(Init(cfg, m)) && CleanRun(cfg, m, [])
  {
    hide Init;
  }

  lemma RegisteredNone(own: Owner)
    requires own.byId == map[]
    ensures Registered(map[], own)
  {
  }

  lemma InitIs(cfg: Config, m: Model, e: State)
    requires e == State(Initial(cfg.numBlocks), e.mem, EmptyTree, [], [], [], 0)
    requires |e.mem| == cfg.numBlocks && forall b :: 0 <= b < |e.mem| ==> IsBlank(cfg.bs, m.blank, e.mem[b])
    ensures e == Init(cfg, m)
  {
    hide Initial;
    var mem := Init(cfg, m).mem;
    forall b | 0 <= b < cfg.numBlocks
      ensures e.mem[b] == mem[b]
    {
      assert IsBlank(cfg.bs, m.blank, e.mem[b]) && IsBlank(cfg.bs, m.blank, mem[b]);
      SameBlank(cfg.bs, m.blank, e.mem[b], mem[b]);
    }
  }

  lemma SameBlank(bs: nat, blank: Column, a: seq<Column>, b: seq<Column>)
    requires IsBlank(bs, blank, a) && IsBlank(bs, blank, b)
    ensures a == b
  {
  }

  lemma CacheUsable(kv: PagedKVCache)
    requires kv.Valid()
    ensures kv.allocator.Valid()
  {
  }

  lemma CacheReady(scheduler: Scheduler, st: State, cfg: Config)
    requires scheduler.Memory(scheduler.own, st.pool, st.mem) && scheduler.cfg == cfg
    ensures scheduler.kv.Valid() && scheduler.kv.blockSize == cfg.bs && StoreOf(st) == scheduler.kv.Value()
  {
  }

  predicate InVocabulary(cfg: Config, prompt: seq<Token>) {
    forall t :: t in prompt ==> 0 <= t < cfg.vocab
  }

  lemma AcceptableIs(cfg: Config, prompt: seq<Token>, maxTokens: int)
    ensures Acceptable(cfg, prompt, maxTokens) <==>
      prompt != [] && maxTokens > 0 && InVocabulary(cfg, prompt) && |prompt| + maxTokens <= cfg.maxModelLen
    ensures Acceptable(cfg, prompt, maxTokens) <==>
      && 1 <= |prompt| <= cfg.maxModelLen - maxTokens && maxTokens >= 1
      && forall t :: t in prompt ==> 0 <= t < cfg.vocab
  {
  }

  lemma AddIs(cfg: Config, m: Model, e: State, prompt: seq<Token>, maxTokens: int, ignoreEos: bool)
    requires cfg.bs > 0
    ensures Next(cfg, m, e, Add(prompt, maxTokens, ignoreEos)) == Some(Submit(cfg, e, prompt, maxTokens, ignoreEos))
    ensures !Acceptable(cfg, prompt, maxTokens) ==> Submit(cfg, e, prompt, maxTokens, ignoreEos) == e
    ensures Acceptable(cfg, prompt, maxTokens) ==>
      maxTokens > 0 && Submit(cfg, e, prompt, maxTokens, ignoreEos)
        == e.(waiting := e.waiting + [NewRequest(e.nextId, prompt, maxTokens, ignoreEos)], nextId := e.nextId + 1)
  {
  }

  lemma NowRegistered(requests: map<nat, Request>, own: Owner, request: Request)
    requires Registered(requests, own)
    ensures Registered(requests[request.id := request],
      Owner(own.cache, own.repr + {request}, own.byId[request.id := request]))
  {
  }

  lemma CancelIs(cfg: Config, m: Model, e: State, id: nat)
    requires cfg.bs > 0
    ensures Next(cfg, m, e, Cancel(id)) == Some(Serving.Abort(e, id))
  {
    hide Serving.Abort;
  }

  lemma RegisteredAt(requests: map<nat, Request>, own: Owner, id: nat)
    requires Registered(requests, own) && id in requests
    ensures requests == own.byId && requests[id].id == id && requests[id] in own.repr
  {
  }

  lemma NobodyFinished(cfg: Config, m: Model, e: State)
    requires Safe(cfg, m, e) && Settled(e)
    ensures forall j :: 0 <= j < |e.running| ==> e.running[j].status != Finished && e.running[j].status != Aborted
    ensures forall j :: 0 <= j < |e.waiting| ==> e.waiting[j].status != Finished && e.waiting[j].status != Aborted
  {
    hide MemoryOk, OwnershipOk, ViewsOk, NodesOk, OutputsOk, IdsOk, PagedOk;
    forall j | 0 <= j < |e.running|
      ensures e.running[j].status != Finished && e.running[j].status != Aborted
    {
      assert !e.running[j].IsFinished();
    }
    forall j | 0 <= j < |e.waiting|
      ensures e.waiting[j].status != Finished && e.waiting[j].status != Aborted
    {
      assert WaitingOk(cfg, e.waiting[j]);
    }
  }

  lemma OnlyOne(q: seq<Req>, k: nat)
    requires Distinct(q) && k < |q|
    ensures forall r :: r in Without(q, k) ==> r.id != q[k].id
  {
  }

  /** After an abort nobody with that id is queued. */
  lemma AbortGone(e: State, id: nat)
    requires Distinct(Queued(e))
    ensures var e' := Serving.Abort(e, id);
      Find(e'.waiting, id) == |e'.waiting| && Find(e'.running, id) == |e'.running|
  {
    hide *;
    var e', i, j := Serving.Abort(e, id), Find(e.waiting, id), Find(e.running, id);
    AbortUnknown(e, id);
    if i < |e.waiting| || j < |e.running| {
      AbortIs(e, id);
      var k := if i < |e.waiting| then |e.running| + i else j;
      OnlyOne(Queued(e), k);
      AbortedIs(e, id, k);
      DroppedQueue(e, e', k, Queued(e)[k].(kv := None, status := Aborted));
      NobodyQueued(e', id);
    }
  }

  lemma AbortedIs(e: State, id: nat, k: nat)
    requires k == if Find(e.waiting, id) < |e.waiting| then |e.running| + Find(e.waiting, id) else Find(e.running, id)
    requires Find(e.waiting, id) < |e.waiting| || Find(e.running, id) < |e.running|
    ensures k < |Queued(e)| && Queued(e)[k].id == id
  {
  }

  lemma NobodyQueued(e: State, id: nat)
    requires forall r :: r in Queued(e) ==> r.id != id
    ensures Find(e.waiting, id) == |e.waiting| && Find(e.running, id) == |e.running|
  {
    QueuedSizes(e);
  }

  lemma DroppedQueue(e: State, e': State, k: nat, r: Req)
    requires Dropped(e, e', k, r)
    ensures k < |Queued(e)| && Queued(e') == Without(Queued(e), k)
  {
  }

  lemma SliceIs(c: PrefillChunk)
    ensures SliceOf(c) == Slice(c.request.id, c.startPos, c.numTokens, c.isFinalChunk)
  {
  }

  lemma CommitParts(e: State, i: nat, p: Pass, r: Req)
    requires i < |e.running|
    ensures var e' := Serving.Commit(e, i, p, r);
      && e'.pool == p.store.pool && e'.mem == p.store.mem && e'.tree == e.tree && e'.running == e.running[i := r]
      && e'.waiting == e.waiting && e'.done == e.done && e'.nextId == e.nextId
  {
  }

  lemma SafeLength(cfg: Config, m: Model, e: State, i: nat)
    requires Safe(cfg, m, e) && i < |e.running|
    ensures e.running[i].kv.Some? && e.running[i].kv.value.length == e.running[i].computed
    ensures e.running[i].computed <= |e.running[i].Table()| * cfg.bs
  {
    SafeRunning(cfg, m, e, i);
    hide Safe;
  }

  lemma FeedIs(r: Req, c: Slice)
    requires c.start + c.count <= |r.PrefillTokens()|
    ensures ChunkFeed(r, c) == r.PrefillTokens()[c.start..c.start + c.count]
  {
  }

  // ---- the batch call

  /** The outputs are plain decoding of the prompts, one by one. */
  ghost predicate Decoded(m: Model, prompts: seq<seq<Token>>, maxTokens: int, ignoreEos: bool,
                          outputs: seq<seq<Token>>) {
    && |outputs| == |prompts|
    && forall i :: 0 <= i < |prompts| ==>
         maxTokens > 0 && prompts[i] != [] && outputs[i] == Continue(m, prompts[i], maxTokens, ignoreEos)
  }

  ghost predicate Recorded(id: nat, output: seq<Token>, base: nat, done: seq<Req>) {
    exists i :: base <= i < |done| && done[i].id == id && done[i].output == output
  }

  /** The table holds an output of every record since `base`, and no other. */
  ghost predicate Finals(final: map<nat, seq<Token>>, base: nat, done: seq<Req>) {
    && (forall i :: base <= i < |done| ==> done[i].id in final)
    && (forall id :: id in final ==> Recorded(id, final[id], base, done))
  }

  lemma FinalsNone(done: seq<Req>)
    ensures Finals(map[], |done|, done)
  {
  }

  lemma FinalsMore(final: map<nat, seq<Token>>, base: nat, done: seq<Req>, k: nat)
    requires base <= k < |done| && Finals(final, base, done[..k])
    ensures Finals(final[done[k].id := done[k].output], base, done[..k + 1])
  {
    var final' := final[done[k].id := done[k].output];
    forall id | id in final'
      ensures Recorded(id, final'[id], base, done[..k + 1])
    {
      if id == done[k].id {
        assert done[..k + 1][k].id == id;
      } else {
        var i :| base <= i < |done[..k]| && done[..k][i].id == id && done[..k][i].output == final[id];
        assert done[..k + 1][i] == done[..k][i];
      }
    }
  }

  lemma DeliveredParts(before: seq<Req>, after: seq<Req>, outputs: seq<EngineOutput>)
    requires Delivered(before, after, outputs)
    ensures |after| == |before| + |outputs| && before <= after
    ensures forall i :: 0 <= i < |outputs| ==>
      outputs[i] == EngineOutput(after[|before| + i].id, after[|before| + i].output)
    ensures after[..|before|] == before && after[..|before| + |outputs|] == after
  {
  }

  lemma AddsNone(events: seq<Event>, maxTokens: int, ignoreEos: bool)
    ensures events + Adds([], maxTokens, ignoreEos) == events
  {
  }

  lemma AddsMore(events: seq<Event>, prompts: seq<seq<Token>>, k: nat, maxTokens: int, ignoreEos: bool)
    requires k < |prompts|
    ensures events + Adds(prompts[..k], maxTokens, ignoreEos) + [Add(prompts[k], maxTokens, ignoreEos)]
      == events + Adds(prompts[..k + 1], maxTokens, ignoreEos)
  {
    assert Adds(prompts[..k], maxTokens, ignoreEos) + [Add(prompts[k], maxTokens, ignoreEos)] ==
      Adds(prompts[..k + 1], maxTokens, ignoreEos);
  }

  lemma SubmitIs(cfg: Config, e: State, prompt: seq<Token>, maxTokens: int, ignoreEos: bool)
    ensures var e' := Submit(cfg, e, prompt, maxTokens, ignoreEos);
      e'.done == e.done && e'.nextId == e.nextId + if Acceptable(cfg, prompt, maxTokens) then 1 else 0
  {
  }

  /** The table's entry for an id is plain decoding of a prompt. */
  ghost predicate Answered(m: Model, prompt: seq<Token>, maxTokens: int, ignoreEos: bool, final: map<nat, seq<Token>>,
                           id: nat) {
    id in final && maxTokens > 0 && prompt != [] && final[id] == Continue(m, prompt, maxTokens, ignoreEos)
  }

  lemma DecodedNone(m: Model, maxTokens: int, ignoreEos: bool)
    ensures Decoded(m, [], maxTokens, ignoreEos, [])
  {
  }

  lemma DecodedMore(m: Model, prompts: seq<seq<Token>>, maxTokens: int, ignoreEos: bool, outputs: seq<seq<Token>>,
                    i: nat)
    requires i < |prompts|
    ensures Decoded(m, prompts[..i], maxTokens, ignoreEos, outputs) && maxTokens > 0 && prompts[i] != [] ==>
      Decoded(m, prompts[..i + 1], maxTokens, ignoreEos, outputs + [Continue(m, prompts[i], maxTokens, ignoreEos)])
  {
    hide Continue;
    assert forall j :: 0 <= j < i ==> prompts[..i + 1][j] == prompts[..i][j];
  }

  /** One prompt of a drained batch: the record with its number, and what the table says. */
  lemma RecordedOne(cfg: Config, m: Model, start: seq<Event>, prompts: seq<seq<Token>>, maxTokens: int,
                    ignoreEos: bool, n: nat, e: State, final: map<nat, seq<Token>>, base: nat, i: nat)
    requires cfg.bs > 0 && i < |prompts| && maxTokens > 0
    requires CleanRun(cfg, m, start + Adds(prompts, maxTokens, ignoreEos) + Idle(n))
    requires Run(cfg, m, start + Adds(prompts, maxTokens, ignoreEos) + Idle(n)) == Some(e)
    requires forall p :: p in prompts ==> Acceptable(cfg, p, maxTokens)
    requires e.running == [] && e.waiting == [] && base <= |e.done|
    requires Run(cfg, m, start).Some? && Run(cfg, m, start).value.done == e.done[..base]
    requires Finals(final, base, e.done)
    ensures Answered(m, prompts[i], maxTokens, ignoreEos, final, Run(cfg, m, start).value.nextId + i)
  {
    hide *;
    var all, k := start + Adds(prompts, maxTokens, ignoreEos) + Idle(n), Run(cfg, m, start).value.nextId + i;
    RequestsConserved(cfg, m, start);
    BatchUncancelled(cfg, start, prompts, maxTokens, ignoreEos, n, k);
    BatchTickets(cfg, m, start, prompts, maxTokens, ignoreEos, n, i);
    var d := Present(cfg, m, all, k);
    forall d' | d' in e.done[..base]
      ensures d'.id < Run(cfg, m, start).value.nextId
    {
      DoneTicket(cfg, m, start, d');
    }
    var j := LateRecord(e.done, base, d, k);
    var d' := OfRecord(final, base, e.done, j);
    Served(cfg, m, all, d');
    AnsweredIs(m, prompts[i], maxTokens, ignoreEos, final, k);
  }

  lemma AnsweredIs(m: Model, prompt: seq<Token>, maxTokens: int, ignoreEos: bool, final: map<nat, seq<Token>>, id: nat)
    ensures Answered(m, prompt, maxTokens, ignoreEos, final, id) <==>
      id in final && maxTokens > 0 && prompt != [] && final[id] == Continue(m, prompt, maxTokens, ignoreEos)
  {
  }

  lemma LateRecord(done: seq<Req>, base: nat, d: Req, k: nat) returns (j: nat)
    requires base <= |done| && d in done && d.id == k && forall d' :: d' in done[..base] ==> d'.id < k
    ensures base <= j < |done| && done[j].id == k
  {
    j :| 0 <= j < |done| && done[j] == d;
    EarlyRecord(done, base, j);
  }

  lemma EarlyRecord(done: seq<Req>, base: nat, j: nat)
    requires j < |done| && base <= |done|
    ensures j < base ==> done[j] in done[..base]
  {
  }

  lemma OfRecord(final: map<nat, seq<Token>>, base: nat, done: seq<Req>, j: nat) returns (d: Req)
    requires Finals(final, base, done) && base <= j < |done|
    ensures d in done && d.id == done[j].id && d.id in final && final[d.id] == d.output
  {
    assert Recorded(done[j].id, final[done[j].id], base, done);
    var i :| base <= i < |done| && done[i].id == done[j].id && done[i].output == final[done[j].id];
    d := done[i];
  }

  /** The numbers and tickets of a batch, after any number of steps. */
  lemma BatchTickets(cfg: Config, m: Model, start: seq<Event>, prompts: seq<seq<Token>>, maxTokens: int,
                     ignoreEos: bool, n: nat, i: nat)
    requires cfg.bs > 0 && i < |prompts| && maxTokens > 0
    requires CleanRun(cfg, m, start + Adds(prompts, maxTokens, ignoreEos) + Idle(n))
    requires forall p :: p in prompts ==> Acceptable(cfg, p, maxTokens)
    ensures var ts := Accepted(cfg, start + Adds(prompts, maxTokens, ignoreEos) + Idle(n));
      var k := |Accepted(cfg, start)| + i;
      k < |ts| && ts[k] == Ticket(k, prompts[i], maxTokens, ignoreEos)
  {
    hide *;
    AddsAccepted(cfg, start, prompts, maxTokens, ignoreEos, i);
    var batch := start + Adds(prompts, maxTokens, ignoreEos);
    CleanPrefix(cfg, m, batch + Idle(n), |batch|);
    assert (batch + Idle(n))[..|batch|] == batch;
    RunKeeps(cfg, m, batch);
    RunTicks(cfg, m, start + Adds(prompts, maxTokens, ignoreEos), n);
  }
}
