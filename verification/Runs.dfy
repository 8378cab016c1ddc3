/** The engine's promises over every run. */
module Runs {
  import opened Blocks
  import opened Paging
  import opened Decoding
  import opened Options
  import opened Radix
  import opened RadixLaws
  import opened Requests
  import opened Scheduling
  import opened Serving
  import opened Safety
  import opened SafetyMoves
  import opened SafetyPlan
  import opened SafetySchedule
  import opened SafetyExec
  import opened SafetyRetire

  // ---- the invariant holds in every reachable state

  lemma InitSafe(cfg: Config, m: Model)
    requires cfg.bs > 0
    ensures Safe(cfg, m, Init(cfg, m)) && Settled(Init(cfg, m))
  {
    var e := Init(cfg, m);
    InitialCounts(cfg.numBlocks);
    assert Held(e) == multiset{};
    assert TreeOk(e.tree);
  }

  lemma UnfinishedSettles(e: State)
    requires e.running == Unfinished(e.running)
    ensures Settled(e)
  {
  }

  lemma {:induction false} UnfinishedTwice(q: seq<Req>)
    ensures Unfinished(Unfinished(q)) == Unfinished(q)
    decreases |q|
  {
    if q != [] {
      var rest := Unfinished(q[1..]);
      UnfinishedTwice(q[1..]);
      if !q[0].IsFinished() {
        assert ([q[0]] + rest)[1..] == rest;
      } else {
        assert [] + rest == rest;
      }
    }
  }

  /** How a step that has work to do moves the queues. */
  ghost predicate Stepped(cfg: Config, e: State, w: Work, e2: State, e': State)
    requires cfg.bs > 0
  {
    && w == Schedule(cfg, e)
    && Evolved(w.st, e2) && AllFulfilled(w.st, e2, w.decodes, w.chunks)
    && e'.running == Unfinished(e2.running) && e'.waiting == w.st.waiting && e'.nextId == w.st.nextId
    && e'.done == w.st.done + Retired(e2.running)
  }

  /** A step that undoes no cache hit never raises, and keeps the invariant. */
  lemma StepKeeps(cfg: Config, m: Model, e: State) returns (e2: State, e': State)
    requires cfg.bs > 0 && Clean(cfg, e) && Safe(cfg, m, e) && Settled(e)
    ensures Step(cfg, m, e) == Some(e') && Safe(cfg, m, e') && Settled(e')
    ensures Empty(Schedule(cfg, e)) ==> e' == Schedule(cfg, e).st
    ensures !Empty(Schedule(cfg, e)) ==> Stepped(cfg, e, Schedule(cfg, e), e2, e')
    ensures Safe(cfg, m, e2)
  {
    hide Safe, Settled, Executable, Schedule, Evolved, AllFulfilled, ExecChunks, ExecDecodes, RetireFrom, Clean;
    var w := Schedule(cfg, e);
    ScheduleIsExecutable(cfg, m, e);
    if Empty(w) {
      e2, e' := w.st, w.st;
    } else {
      var e1;
      e1, e2 := PlanRuns(cfg, m, w.st, w.decodes, w.chunks);
      RetireFromSafe(cfg, m, e2, 0);
      e' := RetireFrom(cfg, e2, 0);
      assert e'.running == Unfinished(e2.running) by {
        assert e2.running[0..] == e2.running;
        assert e2.running[..0] + Unfinished(e2.running) == Unfinished(e2.running);
      }
      assert e'.done == e2.done + Retired(e2.running) by {
        assert e2.running[0..] == e2.running;
      }
      UnfinishedTwice(e2.running);
      UnfinishedSettles(e');
      EvolvedQueues(w.st, e2);
    }
  }

  lemma EvolvedQueues(e: State, e': State)
    requires Evolved(e, e')
    ensures e'.waiting == e.waiting && e'.nextId == e.nextId && e'.done == e.done
  {
  }

  /** Under the two safe modes no step undoes a cache hit. */
  lemma StepSafe(cfg: Config, m: Model, e: State) returns (e2: State, e': State)
    requires Allowed(cfg) && Safe(cfg, m, e) && Settled(e)
    ensures Step(cfg, m, e) == Some(e') && Safe(cfg, m, e') && Settled(e')
    ensures Empty(Schedule(cfg, e)) ==> e' == Schedule(cfg, e).st
    ensures !Empty(Schedule(cfg, e)) ==> Stepped(cfg, e, Schedule(cfg, e), e2, e')
    ensures Safe(cfg, m, e2)
  {
    assert cfg.bs > 0;
    hide *;
    ScheduleIsExecutable(cfg, m, e);
    e2, e' := StepKeeps(cfg, m, e);
  }

  /** No step of the run undoes a cache hit. */
  ghost predicate CleanRun(cfg: Config, m: Model, events: seq<Event>)
    requires cfg.bs > 0
    decreases |events|
  {
    events == [] ||
    var before := events[..|events| - 1];
    && CleanRun(cfg, m, before)
    && (events[|events| - 1].Tick? && Run(cfg, m, before).Some? ==> Clean(cfg, Run(cfg, m, before).value))
  }

  lemma NextKeeps(cfg: Config, m: Model, e: State, ev: Event)
    requires cfg.bs > 0 && Safe(cfg, m, e) && Settled(e) && (ev.Tick? ==> Clean(cfg, e))
    ensures Next(cfg, m, e, ev).Some?
    ensures Safe(cfg, m, Next(cfg, m, e, ev).value) && Settled(Next(cfg, m, e, ev).value)
  {
    hide Safe, Step, Abort, Clean;
    match ev
    case Add(prompt, maxTokens, ignoreEos) =>
      SubmitSafe(cfg, m, e, prompt, maxTokens, ignoreEos);
    case Cancel(id) =>
      AbortSafe(cfg, m, e, id);
    case Tick =>
      var e2, e' := StepKeeps(cfg, m, e);
  }

  /** No such run ever raises, and every state it reaches satisfies the invariant. */
  lemma {:induction false} RunKeeps(cfg: Config, m: Model, events: seq<Event>)
    requires cfg.bs > 0 && CleanRun(cfg, m, events)
    ensures Run(cfg, m, events).Some?
    ensures Safe(cfg, m, Run(cfg, m, events).value) && Settled(Run(cfg, m, events).value)
    decreases |events|
  {
    hide Safe, Settled, Next, Init, Clean;
    if events == [] {
      InitSafe(cfg, m);
    } else {
      RunKeeps(cfg, m, events[..|events| - 1]);
      NextKeeps(cfg, m, Run(cfg, m, events[..|events| - 1]).value, events[|events| - 1]);
    }
  }

  /** With chunked prefill, or without a prefix cache, every run is clean. */
  lemma {:induction false} AllowedIsClean(cfg: Config, m: Model, events: seq<Event>)
    requires Allowed(cfg)
    ensures CleanRun(cfg, m, events)
    decreases |events|
  {
    hide Safe, Settled, Next, Init, Clean, Run, Schedule, Executable, Stale;
    if events != [] {
      var before := events[..|events| - 1];
      AllowedIsClean(cfg, m, before);
      RunKeeps(cfg, m, before);
      ScheduleIsExecutable(cfg, m, Run(cfg, m, before).value);
    }
  }

  /** No run under the two safe modes ever raises, and every reachable state satisfies the invariant. */
  lemma RunSafe(cfg: Config, m: Model, events: seq<Event>)
    requires Allowed(cfg)
    ensures Run(cfg, m, events).Some?
    ensures Safe(cfg, m, Run(cfg, m, events).value) && Settled(Run(cfg, m, events).value)
  {
    assert cfg.bs > 0;
    hide *;
    AllowedIsClean(cfg, m, events);
    RunKeeps(cfg, m, events);
  }

  // ---- output equivalence

  lemma OutputIsPrefix(m: Model, r: Req)
    requires OutputOk(m, r)
    ensures r.output <= Reference(m, r)
  {
    hide Continue;
  }

  /**
   Output equivalence: for any arrivals, aborts, preemptions, chunk boundaries and
   cache hits, what a request has generated is at all times a prefix of plain
   one-request decoding, and equals it once the request has finished.
   */
  lemma OutputEquivalence(cfg: Config, m: Model, events: seq<Event>, r: Req)
    requires cfg.bs > 0 && CleanRun(cfg, m, events) && Run(cfg, m, events).Some?
    requires r in Queued(Run(cfg, m, events).value) || r in Run(cfg, m, events).value.done
    ensures r.prompt != [] && r.output <= Reference(m, r)
    ensures r.status == Finished ==> r.output == Reference(m, r)
    ensures r in Run(cfg, m, events).value.done ==> r.status == Finished || r.status == Aborted
  {
    hide MemoryOk, ShapesOk, OwnershipOk, ViewsOk, NodesOk, IdsOk, Run, Reference, Queued;
    RunKeeps(cfg, m, events);
    assert OutputOk(m, r);
    OutputIsPrefix(m, r);
  }

  // ---- reference counts

  /**
   Conservation: a block's count is its occurrences in block tables plus trie nodes,
   the free list is exactly the blocks nobody holds, without repeats.
   */
  lemma ReferencesConserved(cfg: Config, m: Model, events: seq<Event>, b: nat)
    requires cfg.bs > 0 && CleanRun(cfg, m, events) && Run(cfg, m, events).Some? && b < cfg.numBlocks
    ensures var e := Run(cfg, m, events).value;
      && |e.pool.ref| == cfg.numBlocks
      && e.pool.ref[b] == Tables(Queued(e))[b] + (if b in NodeBlocks(e.tree.nodes) then 1 else 0)
      && (b in e.pool.free <==> e.pool.ref[b] == 0)
      && (forall i, j :: 0 <= i < j < |e.pool.free| ==> e.pool.free[i] != e.pool.free[j])
      && |e.pool.free| + |Used(Held(e))| == cfg.numBlocks
  {
    hide TreeOk, ShapesOk, OwnershipOk, ViewsOk, NodesOk, OutputsOk, IdsOk, Run, Shaped, Tables, NodeBlocks, Queued,
      Used;
    RunKeeps(cfg, m, events);
    var e := Run(cfg, m, events).value;
    PoolPartition(e.pool, Held(e));
  }

  lemma {:induction false} NodeBlocksSize(nodes: map<Path, Node>)
    requires OneBlockEach(nodes)
    ensures |NodeBlocks(nodes)| == |nodes|
    decreases |nodes|
  {
    if |nodes| == 0 {
      assert NodeBlocks(nodes) == {};
    } else {
      var p :| p in nodes;
      var rest := nodes - {p};
      assert rest.Keys == nodes.Keys - {p};
      NodeBlocksSize(rest);
      BlocksWithout(nodes, p);
    }
  }

  lemma BlocksWithout(nodes: map<Path, Node>, p: Path)
    requires OneBlockEach(nodes) && p in nodes
    ensures NodeBlocks(nodes) == NodeBlocks(nodes - {p}) + {nodes[p].block}
    ensures nodes[p].block !in NodeBlocks(nodes - {p})
    ensures OneBlockEach(nodes - {p})
  {
    var rest := nodes - {p};
    forall b | b in NodeBlocks(nodes) && b != nodes[p].block
      ensures b in NodeBlocks(rest)
    {
      var q :| q in nodes && nodes[q].block == b;
      assert q in rest;
    }
  }

  /** Once everything has drained, the pool is the free list plus the cached blocks. */
  lemma DrainedPool(cfg: Config, m: Model, events: seq<Event>)
    requires cfg.bs > 0 && CleanRun(cfg, m, events) && Run(cfg, m, events).Some?
    requires Run(cfg, m, events).value.running == [] && Run(cfg, m, events).value.waiting == []
    ensures var e := Run(cfg, m, events).value;
      |e.pool.free| + e.tree.cached == cfg.numBlocks
  {
    hide ShapesOk, OwnershipOk, ViewsOk, NodesOk, OutputsOk, IdsOk, Run, Shaped, Used, NodeBlocks, Counts,
      PrefixClosed, Aged, StampedTogether;
    RunKeeps(cfg, m, events);
    var e := Run(cfg, m, events).value;
    PoolPartition(e.pool, Held(e));
    NodeBlocksSize(e.tree.nodes);
    NothingQueued(e);
  }

  lemma NothingQueued(e: State)
    requires e.running == [] && e.waiting == []
    ensures Used(Held(e)) == NodeBlocks(e.tree.nodes)
  {
    assert Tables(Queued(e)) == multiset{};
  }

  // ---- prefix-cache coherence

  /** In every reachable state a cached block holds exactly the KV of the tokens on its root path. */
  lemma CacheIsCoherent(cfg: Config, m: Model, events: seq<Event>, p: Path)
    requires cfg.bs > 0 && CleanRun(cfg, m, events) && Run(cfg, m, events).Some?
    requires p in Run(cfg, m, events).value.tree.nodes
    ensures var e := Run(cfg, m, events).value;
      && p != [] && |Spell(p)| == |p| * cfg.bs && e.tree.nodes[p].block < |e.mem|
      && 0 <= (|p| - 1) * cfg.bs <= |Spell(p)|
      && e.mem[e.tree.nodes[p].block] == Columns(m, Spell(p))[(|p| - 1) * cfg.bs..]
  {
    hide MemoryOk, ShapesOk, OwnershipOk, ViewsOk, OutputsOk, IdsOk, Run, Spell;
    RunKeeps(cfg, m, events);
    assert NodeOk(cfg, m, Run(cfg, m, events).value, p);
  }

  /** In every reachable state a sequence's cells hold the KV of its own tokens, adopted or computed. */
  lemma ViewsAreCoherent(cfg: Config, m: Model, events: seq<Event>, r: Req)
    requires cfg.bs > 0 && CleanRun(cfg, m, events) && Run(cfg, m, events).Some?
    requires r in Queued(Run(cfg, m, events).value)
    ensures var e := Run(cfg, m, events).value;
      && Shaped(cfg.bs, StoreOf(e)) && InRange(StoreOf(e), r.Table())
      && r.computed <= |r.Table()| * cfg.bs && r.computed <= |r.AllTokens()|
      && Gather(cfg.bs, StoreOf(e), r.Table(), r.computed) == Columns(m, r.AllTokens()[..r.computed])
      && (r.kv.Some? ==> r.kv.value.length == r.computed)
  {
    hide MemoryOk, OwnershipOk, NodesOk, OutputsOk, IdsOk, Run, Gather, Shaped, InRange, Queued;
    RunKeeps(cfg, m, events);
    var e := Run(cfg, m, events).value;
    assert ViewOk(cfg, m, e, r);
    InQueue(e, r);
    if r in e.running {
      assert RunningOk(cfg, r);
    } else {
      assert WaitingOk(cfg, r);
    }
  }

  // ---- eviction at the scheduler's calls

  /** The states schedule() evicts in satisfy the invariant; there eviction is complete and truly LRU. */
  lemma ReclaimIsExact(cfg: Config, m: Model, e: State, k: nat)
    requires cfg.bs > 0 && Safe(cfg, m, e)
    ensures var c := CacheOf(e);
      && |Reclaim(e, k).pool.free| == |e.pool.free| + Min(k, |Unpinned(c)|)
      && Reclaim(e, k).tree.nodes == e.tree.nodes - Set(Victims(c, k))
      && TakesOldest(e.tree.nodes, Victims(c, k), Unpinned(c))
  {
    hide ShapesOk, OwnershipOk, ViewsOk, NodesOk, OutputsOk, IdsOk, TakesOldest, Victims, Unpinned, Reclaim, Counts,
      Shaped, FreeListOk;
    PinsAreClosed(cfg, e);
    hide PinClosed;
    ReclaimMemory(cfg, e, k);
    EvictExact(CacheOf(e), k);
  }

  // ---- plans in runs

  /**
   In every reachable state the next plan names each request at most once, its
   blocks are free, and it respects the token budget and the sequence limit.
   */
  lemma PlansNeverOverCommit(cfg: Config, m: Model, events: seq<Event>)
    requires cfg.bs > 0 && CleanRun(cfg, m, events + [Tick]) && Run(cfg, m, events).Some?
    ensures var e := Run(cfg, m, events).value;
      var w := Schedule(cfg, e);
      && Executable(cfg, w.st, w.decodes, w.chunks)
      && |w.decodes| + ChunkTokens(w.chunks) <= Max(cfg.budget, 1)
      && |e.running| <= cfg.maxSeqs && |w.st.running| <= cfg.maxSeqs
      && Execute(cfg, m, w).Some?
  {
    CleanSoFar(cfg, m, events);
    hide *;
    RunKeeps(cfg, m, events);
    var e := Run(cfg, m, events).value;
    ScheduleIsExecutable(cfg, m, e);
    RunningBounded(cfg, m, events);
    MaxIs(|e.running|, cfg.maxSeqs);
    PlanExecutes(cfg, m, Schedule(cfg, e));
  }

  lemma CleanSoFar(cfg: Config, m: Model, events: seq<Event>)
    requires cfg.bs > 0 && CleanRun(cfg, m, events + [Tick])
    ensures CleanRun(cfg, m, events) && (Run(cfg, m, events).Some? ==> Clean(cfg, Run(cfg, m, events).value))
  {
    assert (events + [Tick])[..|events + [Tick]| - 1] == events;
    hide Run, Clean;
  }

  lemma PlanExecutes(cfg: Config, m: Model, w: Work)
    requires cfg.bs > 0 && Safe(cfg, m, w.st) && Settled(w.st) && Executable(cfg, w.st, w.decodes, w.chunks)
    ensures Execute(cfg, m, w).Some?
  {
    hide Safe, Settled, Executable, Evolved, AllFulfilled, ExecChunks, ExecDecodes, RetireFrom;
    var e1, e2 := PlanRuns(cfg, m, w.st, w.decodes, w.chunks);
  }

  lemma {:induction false} RunningBounded(cfg: Config, m: Model, events: seq<Event>)
    requires cfg.bs > 0 && CleanRun(cfg, m, events) && Run(cfg, m, events).Some?
    ensures |Run(cfg, m, events).value.running| <= cfg.maxSeqs
    decreases |events|
  {
    hide Safe, Settled, Executable, Schedule, Next, Clean, Stale;
    if events != [] {
      var before, ev := events[..|events| - 1], events[|events| - 1];
      RunKeeps(cfg, m, before);
      RunningBounded(cfg, m, before);
      NextRunning(cfg, m, Run(cfg, m, before).value, ev);
      ScheduleIsExecutable(cfg, m, Run(cfg, m, before).value);
    }
  }

  lemma MaxIs(a: int, b: int)
    ensures a <= b ==> Max(a, b) == b
  {
  }

  lemma {:induction false} UnfinishedShorter(q: seq<Req>)
    ensures |Unfinished(q)| <= |q|
    decreases |q|
  {
    if q != [] {
      UnfinishedShorter(q[1..]);
    }
  }

  lemma NextRunning(cfg: Config, m: Model, e: State, ev: Event)
    requires cfg.bs > 0 && Safe(cfg, m, e) && Settled(e) && (ev.Tick? ==> Clean(cfg, e))
    ensures Next(cfg, m, e, ev).Some?
    ensures var e' := Next(cfg, m, e, ev).value;
      |e'.running| <= |e.running| || (ev.Tick? && |e'.running| <= |Schedule(cfg, e).st.running|)
  {
    hide Safe, Settled, Schedule, Step, Evolved, AllFulfilled;
    if ev.Tick? {
      var e2, e' := StepKeeps(cfg, m, e);
      UnfinishedShorter(e2.running);
      if !Empty(Schedule(cfg, e)) {
        assert |e2.running| == |Schedule(cfg, e).st.running| by { EvolvedSize(Schedule(cfg, e).st, e2); }
      }
    }
  }

  lemma EvolvedSize(e: State, e': State)
    requires Evolved(e, e')
    ensures |e'.running| == |e.running|
  {
  }
}
