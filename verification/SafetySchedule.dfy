/** schedule() as a whole: the invariant is kept and the plan can be executed. */
module SafetySchedule {
  import opened Numbers
  import opened Blocks
  import opened Decoding
  import opened Options
  import opened Radix
  import opened Requests
  import opened Scheduling
  import opened Safety
  import opened SafetyMoves
  import opened SafetyAdmission
  import opened SafetyPlan

  // ---- 3. admission

  /**
   With chunked prefill on, an admitted request always gets a slice: the roll-back
   of an admission is unreachable.
   */
  lemma AdmittedGetsAChunk(cfg: Config, r: Req, budget: int, available: int)
    requires cfg.bs > 0 && cfg.chunked && budget > 0 && r.computed < r.PrefillTarget()
    requires Need(cfg, r, r.computed + 1) <= available
    ensures MakeChunk(cfg, r, budget, available).Some?
  {
    CeilDivFits(r.computed + 1, cfg.bs, |r.Table()| + available);
  }

  lemma WaitingIsNotRunning(e: State)
    requires IdsOk(e) && e.waiting != []
    ensures Get(e.running, e.waiting[0].id).None?
  {
    var n, id := |e.running|, e.waiting[0].id;
    assert Queued(e)[n] == e.waiting[0];
    forall i | 0 <= i < n
      ensures e.running[i].id != id
    {
      assert Queued(e)[i] == e.running[i];
    }
  }

  lemma ScheduledIsRunning(cfg: Config, w: Work, id: nat)
    requires cfg.bs > 0 && PlanOk(cfg, w) && id in w.scheduled
    ensures Get(w.st.running, id).Some?
  {
    if id !in w.decodes {
      var c :| c in w.chunks && c.id == id;
      assert ChunkReady(Get(w.st.running, c.id), c);
    }
  }

  lemma UnknownIsNotScheduled(cfg: Config, w: Work, id: nat)
    requires cfg.bs > 0 && PlanOk(cfg, w) && Get(w.st.running, id).None?
    ensures id !in w.scheduled
  {
    if id in w.scheduled {
      ScheduledIsRunning(cfg, w, id);
    }
  }

  lemma AttachPlans(cfg: Config, m: Model, w: Work)
    requires cfg.bs > 0 && Planning(cfg, m, w) && w.st.waiting != []
    ensures var e := Attach(cfg, w.st);
      && Planning(cfg, m, w.(st := e)) && e.running == w.st.running && |e.waiting| == |w.st.waiting|
      && e.waiting[0].kv.Some?
  {
    hide Safe, PlanOk;
    AttachSafe(cfg, m, w.st);
    assert Attach(cfg, w.st).running == w.st.running by { hide MatchTree, MatchBlocks; }
    hide Attach, Get;
    PlanKept(cfg, w, Attach(cfg, w.st));
  }

  lemma AdmitPlans(cfg: Config, m: Model, w: Work)
    requires cfg.bs > 0 && Planning(cfg, m, w) && w.st.waiting != [] && w.st.waiting[0].kv.Some?
    ensures var e, r := Admit(w.st), w.st.waiting[0].(status := Prefill);
      && Planning(cfg, m, w.(st := e))
      && Get(e.running, r.id) == Some(r) && r.id !in w.scheduled && RunningOk(cfg, r)
  {
    hide PlanOk, Get, MemoryOk, OwnershipOk, ViewsOk, NodesOk, OutputsOk;
    var e, r := Admit(w.st), w.st.waiting[0].(status := Prefill);
    AdmitSafe(cfg, m, w.st);
    AdmitShapes(cfg, w.st);
    WaitingIsNotRunning(w.st);
    UnknownIsNotScheduled(cfg, w, r.id);
    RunningDistinct(e);
    assert e.running[|w.st.running|] == r;
    GetMember(e.running, r);
    hide IdsOk, ShapesOk, RunningOk, Distinct;
    forall id | id in w.scheduled
      ensures Get(e.running, id) == Get(w.st.running, id)
    {
      ScheduledIsRunning(cfg, w, id);
      GetAppend(w.st.running, r, id);
    }
    PlanKept(cfg, w, e);
    SettledAppend(w.st, e, r);
  }

  lemma SettledAppend(e: State, e': State, r: Req)
    requires Settled(e) && e'.running == e.running + [r] && !r.IsFinished()
    ensures Settled(e')
  {
  }

  lemma RollBackPlans(cfg: Config, m: Model, w: Work)
    requires cfg.bs > 0 && Planning(cfg, m, w) && w.st.waiting != [] && w.st.waiting[0].kv.Some?
    requires w.st.waiting[0].computed == 0
    ensures Planning(cfg, m, w.(st := RollBack(Admit(w.st))))
    ensures RollBack(Admit(w.st)).running == w.st.running
  {
    hide Safe, PlanOk, Get;
    RollBackSafe(cfg, m, w.st);
    assert RollBack(Admit(w.st)).running == w.st.running;
    PlanKept(cfg, w, RollBack(Admit(w.st)));
  }

  lemma BareHead(cfg: Config, m: Model, w: Work)
    requires cfg.bs > 0 && Planning(cfg, m, w) && w.st.waiting != [] && !cfg.caching
    ensures w.st.waiting[0].computed == 0
  {
    hide MemoryOk, OwnershipOk, ViewsOk, NodesOk, OutputsOk, IdsOk, PlanOk;
    assert WaitingOk(cfg, w.st.waiting[0]);
  }

  ghost function Max(a: int, b: int): int { if a > b then a else b }

  /** The admission phase ends by undoing the admission of a request that has adopted cached blocks. */
  ghost predicate UndoesHit(cfg: Config, w: Work)
    requires cfg.bs > 0
    decreases |w.st.waiting|
  {
    && w.st.waiting != [] && w.budget > 0 && |w.st.running| < cfg.maxSeqs
    && var e := Attach(cfg, w.st);
       && Need(cfg, e.waiting[0], e.waiting[0].computed + 1) <= Available(cfg, w.(st := e))
       && var w2, r := w.(st := Admit(e)), e.waiting[0].(status := Prefill);
          match MakeChunk(cfg, r, w.budget, Available(cfg, w2))
          case None => r.computed > 0
          case Some(c) => UndoesHit(cfg, TakeChunk(cfg, w2, r, c))
  }

  /** A queued request with a position but no KV. */
  ghost predicate Stale(q: seq<Req>) { exists r :: r in q && r.kv.None? && r.computed > 0 }

  /**
   Admission keeps the plan and the invariant, unless it undoes a cache hit; it never does so under
   the two safe modes.
   */
  lemma {:induction false} AdmitPhaseKeeps(cfg: Config, m: Model, w: Work)
    requires cfg.bs > 0 && Planning(cfg, m, w)
    ensures var w' := AdmitPhase(cfg, w);
      if UndoesHit(cfg, w) then Stale(w'.st.waiting)
      else Planning(cfg, m, w') && |w'.st.running| <= Max(|w.st.running|, cfg.maxSeqs)
    ensures Allowed(cfg) ==> !UndoesHit(cfg, w)
    decreases |w.st.waiting|
  {
    hide Planning, Attach, RollBack, MakeChunk, Get, Need, Stale;
    if w.st.waiting != [] && w.budget > 0 && |w.st.running| < cfg.maxSeqs {
      var e := Attach(cfg, w.st);
      AttachPlans(cfg, m, w);
      var w1 := w.(st := e);
      if Need(cfg, e.waiting[0], e.waiting[0].computed + 1) <= Available(cfg, w1) {
        var w2, r := w1.(st := Admit(e)), e.waiting[0].(status := Prefill);
        AdmitPlans(cfg, m, w1);
        assert w2.st.running[|w2.st.running| - 1] == r;
        var c := MakeChunk(cfg, r, w.budget, Available(cfg, w2));
        if c.None? {
          NoSliceLeft(cfg, m, w1, w2);
        } else {
          ChunkFits(cfg, r, w.budget, Available(cfg, w2));
          AdmittedSlice(cfg, m, w2, r, c.value);
          AdmitPhaseKeeps(cfg, m, TakeChunk(cfg, w2, r, c.value));
        }
      }
    }
  }

  /** The head was admitted and got no slice. */
  lemma NoSliceLeft(cfg: Config, m: Model, w1: Work, w2: Work)
    requires cfg.bs > 0 && Planning(cfg, m, w1) && w1.budget > 0 && w1.st.waiting != [] && w1.st.waiting[0].kv.Some?
    requires w2 == w1.(st := Admit(w1.st)) && RunningOk(cfg, w1.st.waiting[0].(status := Prefill))
    requires Need(cfg, w1.st.waiting[0], w1.st.waiting[0].computed + 1) <= Available(cfg, w1)
    requires MakeChunk(cfg, w1.st.waiting[0].(status := Prefill), w1.budget, Available(cfg, w2)).None?
    ensures var r, e := w1.st.waiting[0], RollBack(w2.st);
      && (r.computed > 0 ==> Stale(e.waiting) && !Allowed(cfg))
      && (r.computed == 0 ==> Planning(cfg, m, w1.(st := e)) && e.running == w1.st.running)
  {
    var r := w1.st.waiting[0];
    AdmittedRoom(cfg, r);
    if cfg.chunked {
      AdmittedGetsAChunk(cfg, r.(status := Prefill), w1.budget, Available(cfg, w2));
    }
    if !cfg.caching {
      BareHead(cfg, m, w1);
    }
    if r.computed == 0 {
      RollBackPlans(cfg, m, w1);
    } else {
      var e := RollBack(w2.st);
      hide Planning, MakeChunk, Need, RunningOk, FreeMany;
      assert e.waiting[0] in e.waiting && e.waiting[0].kv.None?;
    }
  }

  lemma AdmittedRoom(cfg: Config, r: Req)
    requires cfg.bs > 0
    ensures Need(cfg, r.(status := Prefill), r.computed + 1) == Need(cfg, r, r.computed + 1)
  {
  }

  lemma AdmittedSlice(cfg: Config, m: Model, w: Work, r: Req, c: Slice)
    requires cfg.bs > 0 && Planning(cfg, m, w) && c.id == r.id && c.count <= w.budget
    requires c.id !in w.scheduled && Get(w.st.running, c.id) == Some(r) && r.status == Prefill
    requires c.start == r.computed && c.count > 0 && c.start + c.count <= r.PrefillTarget()
    requires c.final <==> c.start + c.count == r.PrefillTarget()
    requires Need(cfg, r, c.start + c.count) == 0 || Need(cfg, r, c.start + c.count) <= Available(cfg, w)
    ensures Planning(cfg, m, TakeChunk(cfg, w, r, c))
  {
    hide Safe, PlanOk, Get, Need;
    TakeChunkPlan(cfg, w, r, c);
  }

  // ---- 4. forward progress

  lemma BreakStallKeeps(cfg: Config, m: Model, w: Work)
    requires cfg.bs > 0 && Planning(cfg, m, w)
    ensures var w' := BreakStall(cfg, w);
      Planning(cfg, m, w') && w'.st.running == w.st.running && w'.st.waiting == w.st.waiting
  {
    hide Safe, PlanOk, Reclaim, Get;
    if BreakStall(cfg, w) != w {
      var short := CeilDiv(w.st.waiting[0].computed + 1, cfg.bs) - |w.st.pool.free|;
      var k := if short > 1 then short else 1;
      ReclaimSafe(cfg, m, w.st, k);
      PlanKept(cfg, w, Reclaim(w.st, k));
    }
  }

  /** An executable plan: every item is a running request in the right phase, and all their blocks are free. */
  ghost predicate Executable(cfg: Config, e: State, decodes: seq<nat>, chunks: seq<Slice>)
    requires cfg.bs > 0
  {
    && ItemsOk(e.running, decodes, chunks)
    && DecodeCost(cfg, e.running, decodes) + ChunkCost(cfg, e.running, chunks) <= |e.pool.free|
  }

  lemma PlanIsExecutable(cfg: Config, w: Work)
    requires cfg.bs > 0 && PlanOk(cfg, w)
    ensures Executable(cfg, w.st, w.decodes, w.chunks)
    ensures |w.decodes| + ChunkTokens(w.chunks) <= cfg.budget
  {
    hide ItemsOk, DecodeCost, ChunkCost;
  }

  lemma ForceHeadKeeps(cfg: Config, m: Model, w: Work)
    requires cfg.bs > 0 && Planning(cfg, m, w)
    ensures var w' := ForceHead(cfg, w);
      && Safe(cfg, m, w'.st) && Settled(w'.st)
      && Executable(cfg, w'.st, w'.decodes, w'.chunks)
      && |w'.decodes| + ChunkTokens(w'.chunks) <= Max(cfg.budget, 1)
      && |w'.st.running| <= |w.st.running|
  {
    hide Safe, PlanOk, MakeRoom, Get, Need;
    PlanIsExecutable(cfg, w);
    if Empty(w) && w.st.running != [] && w.st.running[0].PrefillDone() && w.st.running[0].kv.Some? {
      var head := w.st.running[0];
      var needed := Need(cfg, head, head.computed + 1);
      assert Get(w.st.running, head.id) == Some(head) by { GetIs(w.st.running, head.id); }
      DoneIsDecoding(cfg, m, w.st, head);
      MakeRoomKeeps(cfg, m, w.st, needed, {head.id});
      var e := if needed > |w.st.pool.free| then MakeRoom(cfg, w.st, needed, {head.id}) else w.st;
      assert Get(e.running, head.id) == Some(head);
      assert w.decodes + [head.id] == [head.id];
      OneDecode(cfg, e, head);
    }
  }

  lemma OneDecode(cfg: Config, e: State, r: Req)
    requires cfg.bs > 0 && Get(e.running, r.id) == Some(r) && r.status == Running
    ensures Need(cfg, r, r.computed + 1) <= |e.pool.free| ==> Executable(cfg, e, [r.id], [])
    ensures Executable(cfg, e, [], [])
    ensures ChunkTokens([]) == 0
  {
    assert [r.id][1..] == [];
  }

  // ---- the whole call

  lemma StartPlanning(cfg: Config, m: Model, e: State)
    requires cfg.bs > 0 && Safe(cfg, m, e) && Settled(e)
    ensures Planning(cfg, m, Work(e, cfg.budget, 0, {}, [], []))
    ensures Distinct(e.running)
  {
    hide MemoryOk, ShapesOk, OwnershipOk, ViewsOk, NodesOk, OutputsOk, Settled;
    RunningDistinct(e);
    hide IdsOk, Distinct;
  }

  /** This call of schedule() undoes no cache hit. */
  ghost predicate Clean(cfg: Config, e: State)
    requires cfg.bs > 0
  {
    !UndoesHit(cfg, PrefillPhase(cfg, DecodePhase(cfg, Work(e, cfg.budget, 0, {}, [], []), Ids(e.running)), 0))
  }

  /**
   schedule() keeps the invariant, and its plan never over-commits: each item is a
   running request of its own, the blocks it will take are free, and neither the
   token budget nor the sequence limit is exceeded.
   */
  lemma ScheduleIsExecutable(cfg: Config, m: Model, e: State)
    requires cfg.bs > 0 && Safe(cfg, m, e) && Settled(e)
    ensures Allowed(cfg) ==> Clean(cfg, e)
    ensures Clean(cfg, e) ==> var w := Schedule(cfg, e);
      && Safe(cfg, m, w.st) && Settled(w.st)
      && Executable(cfg, w.st, w.decodes, w.chunks)
      && |w.decodes| + ChunkTokens(w.chunks) <= Max(cfg.budget, 1)
      && |w.st.running| <= Max(|e.running|, cfg.maxSeqs)
    ensures !Clean(cfg, e) ==> Stale(Schedule(cfg, e).st.waiting)
  {
    hide Safe, Settled, Executable, DecodePhase, PrefillPhase, AdmitPhase, BreakStall, ForceHead, Distinct, UndoesHit,
      Stale;
    StartPlanning(cfg, m, e);
    var w0 := Work(e, cfg.budget, 0, {}, [], []);
    IdsDistinct(e);
    assert Planning(cfg, m, w0);
    DecodePhaseKeeps(cfg, m, w0, Ids(e.running));
    var w1 := DecodePhase(cfg, w0, Ids(e.running));
    DecodePhaseSlices(cfg, w0, Ids(e.running));
    assert Distinct(w1.st.running) by { PlanningDistinct(cfg, m, w1); }
    hide Planning;
    PrefillPhaseKeeps(cfg, m, w1, 0);
    var w2 := PrefillPhase(cfg, w1, 0);
    AdmitPhaseKeeps(cfg, m, w2);
    var w3 := AdmitPhase(cfg, w2);
    if Clean(cfg, e) {
      BreakStallKeeps(cfg, m, w3);
      ForceHeadKeeps(cfg, m, BreakStall(cfg, w3));
    } else {
      StaleStays(cfg, w3);
    }
  }

  lemma {:induction false} PreemptUntilWaits(cfg: Config, e: State, needed: nat, protected: set<nat>, r: Req)
    requires r in e.waiting
    ensures r in PreemptUntil(cfg, e, needed, protected).waiting
    decreases |e.running|
  {
    if FreeBlocks(cfg, e) < needed {
      match NewestUnprotected(e.running, protected)
      case None =>
      case Some(i) =>
        assert r in Preempt(e, i).waiting;
        PreemptUntilWaits(cfg, Preempt(e, i), needed, protected, r);
    }
  }

  /** The last phase keeps everybody who waits. */
  lemma StaleStays(cfg: Config, w: Work)
    requires cfg.bs > 0 && Stale(w.st.waiting)
    ensures Stale(ForceHead(cfg, BreakStall(cfg, w)).st.waiting)
  {
    var r :| r in w.st.waiting && r.kv.None? && r.computed > 0;
    var b := BreakStall(cfg, w);
    assert b.st.waiting == w.st.waiting by { hide Evict; }
    hide BreakStall;
    if ForceHead(cfg, b).st != b.st {
      var head := b.st.running[0];
      var needed := Need(cfg, head, head.computed + 1);
      var e := ReclaimFor(cfg, b.st, needed);
      assert e.waiting == b.st.waiting by { hide Evict; }
      hide ReclaimFor, PreemptUntil, Need;
      PreemptUntilWaits(cfg, e, needed, {head.id}, r);
    }
  }

  /**
   The exact condition: schedule() leaves a state that satisfies the invariant if and
   only if it undoes no admission after a cache hit. The KV goes but the position
   stays, and a position without KV breaks the invariant.
   */
  lemma SafeExactlyWhenClean(cfg: Config, m: Model, e: State)
    requires cfg.bs > 0 && Safe(cfg, m, e) && Settled(e)
    ensures Safe(cfg, m, Schedule(cfg, e).st) <==> Clean(cfg, e)
  {
    hide Safe, Settled, Executable, Schedule, Clean, Stale;
    ScheduleIsExecutable(cfg, m, e);
    if !Clean(cfg, e) {
      StaleIsUnsafe(cfg, m, Schedule(cfg, e).st);
    }
  }

  lemma StaleIsUnsafe(cfg: Config, m: Model, e: State)
    requires Stale(e.waiting)
    ensures !Safe(cfg, m, e)
  {
    hide MemoryOk, OwnershipOk, ViewsOk, NodesOk, OutputsOk, IdsOk, ShapesOk, Stale;
    if Safe(cfg, m, e) {
      NobodyStale(cfg, e);
    }
  }

  lemma NobodyStale(cfg: Config, e: State)
    requires ShapesOk(cfg, e)
    ensures !Stale(e.waiting)
  {
    forall r | r in e.waiting
      ensures r.kv.Some? || r.computed == 0
    {
      assert WaitingOk(cfg, r);
    }
  }

  lemma ScheduleUnfolds(cfg: Config, e: State)
    requires cfg.bs > 0
    ensures Schedule(cfg, e) ==
      ForceHead(cfg, BreakStall(cfg,
        AdmitPhase(cfg, PrefillPhase(cfg, DecodePhase(cfg, Work(e, cfg.budget, 0, {}, [], []), Ids(e.running)), 0))))
  {
    hide DecodePhase, PrefillPhase, AdmitPhase, BreakStall, ForceHead;
  }

  lemma PlanningDistinct(cfg: Config, m: Model, w: Work)
    requires cfg.bs > 0 && Planning(cfg, m, w)
    ensures Distinct(w.st.running)
  {
    hide MemoryOk, ShapesOk, OwnershipOk, ViewsOk, NodesOk, OutputsOk, PlanOk, Settled;
    RunningDistinct(w.st);
  }

  lemma IdsDistinct(e: State)
    requires Distinct(e.running)
    ensures var ids := Ids(e.running);
      forall i, j :: 0 <= i < j < |ids| ==> ids[i] != ids[j]
  {
  }

  /** Phase 1 plans decodes only. */
  lemma {:induction false} DecodePhaseSlices(cfg: Config, w: Work, ids: seq<nat>)
    requires cfg.bs > 0
    ensures DecodePhase(cfg, w, ids).chunks == w.chunks
    decreases |ids|
  {
    if ids != [] && w.budget > 0 {
      DecodePhaseSlices(cfg, DecodeOne(cfg, w, ids[0]), ids[1..]);
      hide MakeRoom;
    }
  }

  lemma SettledSame(e: State, e': State)
    requires Settled(e) && e'.running == e.running
    ensures Settled(e')
  {
  }

  lemma Unsliced(w: Work)
    requires w.chunks == []
    ensures forall j :: 0 <= j < |w.st.running| ==> !Sliced(w.chunks, w.st.running[j].id)
  {
  }
}
