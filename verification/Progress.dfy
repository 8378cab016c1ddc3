/**
 Forward progress with the prefix cache off: the oldest request is never
 preempted, it advances in every step, and the engine drains.
 */
module Progress {
  import opened Numbers
  import opened Blocks
  import opened Paging
  import opened Decoding
  import opened Options
  import opened Radix
  import opened Requests
  import opened Scheduling
  import opened Serving
  import opened Safety
  import opened SafetyAdmission
  import opened SafetyPlan
  import opened SafetySchedule
  import opened SafetyExec
  import opened SafetyRetire
  import opened Runs
  import opened Conservation
  import opened Fairness

  /** The configurations that promise progress. */
  ghost predicate Progressive(cfg: Config) {
    && cfg.bs > 0 && cfg.chunked && !cfg.caching && cfg.preemption
    && cfg.budget >= 1 && cfg.maxSeqs >= 1
  }

  /** The positions a submission may come to hold in the KV cache: all its tokens but the last. */
  function Span(t: Ticket): nat {
    if |t.prompt| + t.maxTokens > 0 then |t.prompt| + t.maxTokens - 1 else 0
  }

  /** The submission fits in the pool above the watermark. */
  ghost predicate FitsOne(cfg: Config, t: Ticket) {
    cfg.bs > 0 && CeilDiv(Span(t), cfg.bs) <= cfg.numBlocks - cfg.watermark
  }

  ghost predicate Fits(cfg: Config, e: State) {
    forall t :: t in Line(e) ==> FitsOne(cfg, t)
  }

  /** The states between steps of a progressive engine whose requests all fit. */
  ghost predicate Steady(cfg: Config, m: Model, e: State) {
    && Safe(cfg, m, e) && Settled(e) && MidIsLast(e.running) && InOrder(e)
    && e.tree.nodes == map[] && Fits(cfg, e)
  }

  // ---- memory

  lemma {:induction false} EmptyTables(q: seq<Req>)
    requires forall r :: r in q ==> r.Table() == []
    ensures Tables(q) == multiset{}
    decreases |q|
  {
    if q != [] {
      EmptyTables(q[1..]);
    }
  }

  lemma {:induction false} MembersSize(s: seq<nat>)
    ensures |Members(s)| <= |s|
    decreases |s|
  {
    if s == [] {
      assert Members(s) == {};
    } else {
      MembersSize(s[1..]);
      assert s == [s[0]] + s[1..];
      assert Members(s) == Members(s[1..]) + {s[0]};
    }
  }

  /** The block table of the only running request, or none. */
  function LoneTable(e: State): seq<nat> { if e.running == [] then [] else e.running[0].Table() }

  lemma LoneHeld(cfg: Config, e: State)
    requires cfg.bs > 0 && !cfg.caching && ShapesOk(cfg, e) && e.tree.nodes == map[] && |e.running| <= 1
    ensures Used(Held(e)) == Members(LoneTable(e))
  {
    forall r | r in e.waiting
      ensures r.Table() == []
    {
      assert WaitingOk(cfg, r);
      NoPages(cfg, r);
    }
    hide WaitingOk, RunningOk;
    EmptyTables(e.waiting);
    TablesConcat(e.running, e.waiting);
    assert NodeBlocks(e.tree.nodes) == {};
    assert multiset(NodeBlocks(e.tree.nodes)) == multiset{};
    if e.running != [] {
      assert e.running == [e.running[0]];
      TablesOne(e.running[0]);
    }
  }

  /** Without a cache and with at most one request running, everything else is free. */
  lemma AloneIsRoomy(cfg: Config, m: Model, e: State)
    requires cfg.bs > 0 && !cfg.caching && Safe(cfg, m, e) && e.tree.nodes == map[] && |e.running| <= 1
    ensures |e.pool.free| >= cfg.numBlocks - |LoneTable(e)|
  {
    hide OwnershipOk, ViewsOk, NodesOk, OutputsOk, IdsOk, TreeOk, Shaped, Held, Used, Members, ShapesOk, FreeListOk,
      LoneTable;
    PoolPartition(e.pool, Held(e));
    LoneHeld(cfg, e);
    MembersSize(LoneTable(e));
  }

  lemma BelowSpan(cfg: Config, r: Req)
    requires (RunningOk(cfg, r) && !r.IsFinished()) || WaitingOk(cfg, r)
    ensures r.computed < Span(TicketOf(r))
    ensures PagedOk(cfg, r)
  {
  }

  /** What a fitting request still needs for one more token is there when nobody else holds anything. */
  lemma OneMoreFits(cfg: Config, r: Req)
    requires FitsOne(cfg, TicketOf(r)) && PagedOk(cfg, r) && r.computed < Span(TicketOf(r))
    ensures Need(cfg, r, r.computed + 1) <= cfg.numBlocks - cfg.watermark - |r.Table()|
  {
    CeilDivMono(r.computed + 1, Span(TicketOf(r)), cfg.bs);
    CeilDivMono(r.computed, Span(TicketOf(r)), cfg.bs);
    CeilDivUnique(r.computed, cfg.bs, |r.Table()|);
  }

  // ---- plans only grow

  ghost predicate Extends(w: Work, w': Work) {
    w.decodes <= w'.decodes && w.chunks <= w'.chunks
  }

  lemma {:induction false} DecodePhaseExtends(cfg: Config, w: Work, ids: seq<nat>)
    requires cfg.bs > 0
    ensures Extends(w, DecodePhase(cfg, w, ids))
    decreases |ids|
  {
    if ids != [] && w.budget > 0 {
      assert Extends(w, DecodeOne(cfg, w, ids[0])) by { hide MakeRoom, Need, Find; }
      hide DecodeOne;
      DecodePhaseExtends(cfg, DecodeOne(cfg, w, ids[0]), ids[1..]);
    }
  }

  lemma {:induction false} PrefillPhaseExtends(cfg: Config, w: Work, i: nat)
    requires cfg.bs > 0 && i <= |w.st.running|
    ensures Extends(w, PrefillPhase(cfg, w, i))
    decreases |w.st.running| - i
  {
    if i < |w.st.running| && w.budget > 0 {
      assert Extends(w, PrefillOne(cfg, w, w.st.running[i])) by { hide MakeChunk; }
      PrefillPhaseExtends(cfg, PrefillOne(cfg, w, w.st.running[i]), i + 1);
    }
  }

  lemma {:induction false} AdmitPhaseExtends(cfg: Config, w: Work)
    requires cfg.bs > 0
    ensures Extends(w, AdmitPhase(cfg, w)) && w.st.running <= AdmitPhase(cfg, w).st.running
    decreases |w.st.waiting|
  {
    hide Attach, MakeChunk, Need;
    if w.st.waiting != [] && w.budget > 0 && |w.st.running| < cfg.maxSeqs {
      var e := Attach(cfg, w.st);
      AttachConserves(cfg, w.st);
      AttachSize(cfg, w.st);
      AttachRunning(cfg, w.st);
      if Need(cfg, e.waiting[0], e.waiting[0].computed + 1) <= Available(cfg, w.(st := e)) {
        var w2 := w.(st := Admit(e));
        var r := w2.st.running[|w2.st.running| - 1];
        match MakeChunk(cfg, r, w2.budget, Available(cfg, w2))
        case None =>
        case Some(c) => AdmitPhaseExtends(cfg, TakeChunk(cfg, w2, r, c));
      }
    }
  }

  lemma AttachRunning(cfg: Config, e: State)
    requires cfg.bs > 0 && e.waiting != []
    ensures Attach(cfg, e).running == e.running
  {
    hide MatchBlocks, MatchTree, IncrefMany;
  }

  ghost predicate Planned(w: Work, id: nat) { id in w.decodes || Sliced(w.chunks, id) }

  lemma PlannedStays(w: Work, w': Work, id: nat)
    requires Planned(w, id) && Extends(w, w')
    ensures Planned(w', id) && !Empty(w')
  {
    if id in w.decodes {
      var i :| 0 <= i < |w.decodes| && w.decodes[i] == id;
      assert w'.decodes[i] == id;
    } else {
      var c :| c in w.chunks && c.id == id;
      var i :| 0 <= i < |w.chunks| && w.chunks[i] == c;
      assert w'.chunks[i] == c;
      assert c in w'.chunks;
    }
  }

  // ---- the head is always planned

  lemma HeadDecodes(cfg: Config, m: Model, w: Work)
    requires Progressive(cfg) && Planning(cfg, m, w) && w.st.tree.nodes == map[]
    requires w.reserved == 0 && w.scheduled == {} && w.decodes == []
    requires w.st.running != [] && w.st.running[0].PrefillDone() && Distinct(w.st.running)
    requires FitsOne(cfg, TicketOf(w.st.running[0]))
    ensures DecodeOne(cfg, w, w.st.running[0].id).decodes == [w.st.running[0].id]
  {
    hide Safe, Settled, PlanOk, Need, MakeRoom, Line, RunningOk, FitsOne, Distinct;
    var r := w.st.running[0];
    assert Find(w.st.running, r.id) == 0;
    var needed := Need(cfg, r, r.computed + 1);
    if needed > Available(cfg, w) {
      var e1 := MakeRoom(cfg, w.st, needed + 0, {} + {r.id});
      OnlyFirst(w.st.running);
      MakeRoomTakesNewest(cfg, w.st, needed + 0, {} + {r.id}, 1);
      MakeRoomKeeps(cfg, m, w.st, needed + 0, {} + {r.id});
      MakeRoomConserves(cfg, w.st, needed + 0, {} + {r.id});
      assert e1.running[0] == r;
      if FreeBlocks(cfg, e1) < needed {
        AloneIsRoomy(cfg, m, e1);
        RunningHead(cfg, m, e1);
        BelowSpan(cfg, r);
        OneMoreFits(cfg, r);
      }
    }
  }

  lemma OnlyFirst(q: seq<Req>)
    requires Distinct(q) && q != []
    ensures forall t :: 0 <= t < |q| ==> (q[t].id in {} + {q[0].id} <==> t < 1)
  {
  }

  lemma RunningHead(cfg: Config, m: Model, e: State)
    requires Safe(cfg, m, e) && Settled(e) && e.running != []
    ensures RunningOk(cfg, e.running[0]) && !e.running[0].IsFinished()
  {
    hide MemoryOk, OwnershipOk, ViewsOk, NodesOk, OutputsOk, IdsOk, RunningOk;
  }

  lemma LonePrefill(cfg: Config, m: Model, w: Work)
    requires Progressive(cfg) && Planning(cfg, m, w) && w.st.tree.nodes == map[]
    requires w.reserved == 0 && w.chunks == [] && w.budget > 0
    requires |w.st.running| == 1 && !w.st.running[0].PrefillDone()
    requires FitsOne(cfg, TicketOf(w.st.running[0]))
    ensures Planned(PrefillPhase(cfg, w, 0), w.st.running[0].id)
  {
    hide Safe, Settled, PlanOk, Need, RunningOk, FitsOne, MakeChunk;
    var r := w.st.running[0];
    AloneIsRoomy(cfg, m, w.st);
    RunningHead(cfg, m, w.st);
    BelowSpan(cfg, r);
    OneMoreFits(cfg, r);
    AdmittedGetsAChunk(cfg, r, w.budget, Available(cfg, w));
    var c := MakeChunk(cfg, r, w.budget, Available(cfg, w)).value;
    ChunkFits(cfg, r, w.budget, Available(cfg, w));
    var w1 := PrefillOne(cfg, w, r);
    assert w1.chunks == [c];
    assert c in w1.chunks;
    assert Planned(w1, r.id);
    PrefillPhaseExtends(cfg, w1, 1);
    PlannedStays(w1, PrefillPhase(cfg, w1, 1), r.id);
  }

  /** Without a cache the head of the queue attaches to an empty table. */
  lemma BareAttach(cfg: Config, e: State)
    requires cfg.bs > 0 && !cfg.caching && e.waiting != [] && WaitingOk(cfg, e.waiting[0])
    ensures var e' := Attach(cfg, e);
      && e'.waiting != [] && e'.running == e.running && e'.pool == e.pool
      && TicketOf(e'.waiting[0]) == TicketOf(e.waiting[0]) && WaitingOk(cfg, e'.waiting[0])
      && e'.waiting[0].Table() == [] && e'.waiting[0].computed == 0
  {
    NoPages(cfg, e.waiting[0]);
  }

  lemma LoneAdmission(cfg: Config, m: Model, w: Work)
    requires Progressive(cfg) && Planning(cfg, m, w) && w.st.tree.nodes == map[]
    requires w.reserved == 0 && w.decodes == [] && w.chunks == [] && w.budget > 0
    requires w.st.running == [] && w.st.waiting != []
    requires FitsOne(cfg, TicketOf(w.st.waiting[0]))
    ensures Planned(AdmitPhase(cfg, w), w.st.waiting[0].id)
  {
    hide *;
    ProgressiveSize(cfg);
    PlanningParts(cfg, m, w);
    HeadIsWaiting(cfg, m, w);
    AloneIsRoomy(cfg, m, w.st);
    BareAttach(cfg, w.st);
    var e := Attach(cfg, w.st);
    var r := e.waiting[0].(status := Prefill);
    BelowSpan(cfg, e.waiting[0]);
    OneMoreFits(cfg, e.waiting[0]);
    AdmitQueues(e);
    AdmittedNeedsMemory(cfg, e.waiting[0]);
    AdmittedRoom(cfg, e.waiting[0]);
    var w2 := w.(st := Admit(e));
    AvailableIs(cfg, w);
    AvailableIs(cfg, w.(st := e));
    AvailableIs(cfg, w2);
    NoTable(w.st);
    SameTarget(e.waiting[0]);
    AdmittedGetsAChunk(cfg, r, w.budget, Available(cfg, w2));
    var c := MakeChunk(cfg, r, w.budget, Available(cfg, w2)).value;
    ChunkFits(cfg, r, w.budget, Available(cfg, w2));
    AdmitStep(cfg, w, r, c);
    var w3 := TakeChunk(cfg, w2, r, c);
    FirstSlice(cfg, w2, r, c);
    AdmitPhaseExtends(cfg, w3);
    PlannedStays(w3, AdmitPhase(cfg, w3), c.id);
    SameId(e.waiting[0], w.st.waiting[0]);
  }

  lemma ProgressiveSize(cfg: Config)
    requires Progressive(cfg)
    ensures cfg.bs > 0 && cfg.chunked && !cfg.caching && cfg.maxSeqs >= 1
  {
  }

  lemma AvailableIs(cfg: Config, w: Work)
    ensures Available(cfg, w) == |w.st.pool.free| - cfg.watermark - w.reserved
  {
  }

  lemma NoTable(e: State)
    requires e.running == []
    ensures LoneTable(e) == []
  {
  }

  lemma SameTarget(r: Req)
    ensures var r' := r.(status := Prefill);
      r'.PrefillTarget() == r.PrefillTarget() && r'.Table() == r.Table()
  {
  }

  lemma SameId(a: Req, b: Req)
    requires TicketOf(a) == TicketOf(b)
    ensures a.id == b.id
  {
  }

  lemma AdmitStep(cfg: Config, w: Work, r: Req, c: Slice)
    requires cfg.bs > 0 && w.st.waiting != [] && w.budget > 0 && |w.st.running| < cfg.maxSeqs
    requires var e := Attach(cfg, w.st);
      && e.waiting != [] && r == e.waiting[0].(status := Prefill)
      && Need(cfg, e.waiting[0], e.waiting[0].computed + 1) <= Available(cfg, w.(st := e))
      && MakeChunk(cfg, r, w.budget, Available(cfg, w.(st := Admit(e)))) == Some(c)
    ensures AdmitPhase(cfg, w) == AdmitPhase(cfg, TakeChunk(cfg, w.(st := Admit(Attach(cfg, w.st))), r, c))
  {
    hide Attach, Need, MakeChunk, TakeChunk, Available, Admit, RollBack;
    AttachSize(cfg, w.st);
    AttachRunning(cfg, w.st);
    AdmitQueues(Attach(cfg, w.st));
  }

  lemma FirstSlice(cfg: Config, w: Work, r: Req, c: Slice)
    requires cfg.bs > 0 && w.chunks == []
    ensures Planned(TakeChunk(cfg, w, r, c), c.id)
  {
    hide Need;
    assert c in TakeChunk(cfg, w, r, c).chunks;
  }

  // ---- the whole call

  lemma DecodesFirst(cfg: Config, w: Work, ids: seq<nat>)
    requires cfg.bs > 0 && ids != [] && w.budget > 0
    ensures DecodePhase(cfg, w, ids) == DecodePhase(cfg, DecodeOne(cfg, w, ids[0]), ids[1..])
  {
  }

  lemma SkipsPrefill(cfg: Config, w: Work)
    requires cfg.bs > 0 && |w.st.running| == 1 && !w.st.running[0].PrefillDone()
    ensures DecodePhase(cfg, w, Ids(w.st.running)) == w
  {
    hide MakeRoom, Need;
    assert Find(w.st.running, w.st.running[0].id) == 0;
    assert Ids(w.st.running)[1..] == [];
  }

  lemma EmptyPhases(cfg: Config, w: Work)
    requires cfg.bs > 0 && w.st.running == []
    ensures PrefillPhase(cfg, DecodePhase(cfg, w, Ids(w.st.running)), 0) == w
  {
  }

  lemma LastPhases(cfg: Config, w: Work)
    requires cfg.bs > 0 && !Empty(w)
    ensures ForceHead(cfg, BreakStall(cfg, w)) == w
  {
  }

  lemma RunningHeadStays(cfg: Config, m: Model, e: State, w0: Work)
    requires Progressive(cfg) && Steady(cfg, m, e) && e.running != []
    requires w0 == Work(e, cfg.budget, 0, {}, [], [])
    ensures var w3 := AdmitPhase(cfg, PrefillPhase(cfg, DecodePhase(cfg, w0, Ids(e.running)), 0));
      && Planned(w3, e.running[0].id)
      && Planned(PrefillPhase(cfg, DecodePhase(cfg, w0, Ids(e.running)), 0), e.running[0].id)
  {
    hide Safe, Settled, Planning, MakeRoom, Need, Fits, FitsOne, MidIsLast, InOrder, DecodeOne, DecodePhase,
      PrefillPhase, AdmitPhase,
      Distinct, RunningOk, Line;
    var id, ids := e.running[0].id, Ids(e.running);
    StartPlanning(cfg, m, e);
    HeadFits(cfg, e);
    var w1 := DecodePhase(cfg, w0, ids);
    var w2 := PrefillPhase(cfg, w1, 0);
    if e.running[0].PrefillDone() {
      HeadDecodes(cfg, m, w0);
      DecodesFirst(cfg, w0, ids);
      var w' := DecodeOne(cfg, w0, id);
      assert Planned(w', id);
      DecodePhaseExtends(cfg, w', ids[1..]);
      PlannedStays(w', w1, id);
      PrefillPhaseExtends(cfg, w1, 0);
      PlannedStays(w1, w2, id);
    } else {
      LonePrefiller(cfg, m, e);
      SkipsPrefill(cfg, w0);
      LonePrefill(cfg, m, w0);
    }
    AdmitPhaseExtends(cfg, w2);
    PlannedStays(w2, AdmitPhase(cfg, w2), id);
  }

  lemma HeadFits(cfg: Config, e: State)
    requires Fits(cfg, e)
    ensures e.running != [] ==> FitsOne(cfg, TicketOf(e.running[0]))
    ensures e.waiting != [] ==> FitsOne(cfg, TicketOf(e.waiting[0]))
  {
    hide FitsOne;
    if e.running != [] {
      assert Line(e)[0] == TicketOf(e.running[0]);
      assert Line(e)[0] in Line(e);
    }
    if e.waiting != [] {
      assert Line(e)[|e.running|] == TicketOf(e.waiting[0]);
      assert Line(e)[|e.running|] in Line(e);
    }
  }

  lemma LonePrefiller(cfg: Config, m: Model, e: State)
    requires cfg.bs > 0 && Safe(cfg, m, e) && Settled(e) && MidIsLast(e.running)
    requires e.running != [] && !e.running[0].PrefillDone()
    ensures |e.running| == 1
  {
    hide Safe, Settled;
    DoneIsDecoding(cfg, m, e, e.running[0]);
  }

  lemma WaitingHeadStays(cfg: Config, m: Model, e: State, w0: Work)
    requires Progressive(cfg) && Steady(cfg, m, e) && e.running == [] && e.waiting != []
    requires w0 == Work(e, cfg.budget, 0, {}, [], [])
    ensures var w3 := AdmitPhase(cfg, PrefillPhase(cfg, DecodePhase(cfg, w0, Ids(e.running)), 0));
      Planned(w3, e.waiting[0].id)
  {
    hide Safe, Settled, Planning, Fits, FitsOne, DecodePhase, PrefillPhase, AdmitPhase, Line;
    StartPlanning(cfg, m, e);
    HeadFits(cfg, e);
    EmptyPhases(cfg, w0);
    LoneAdmission(cfg, m, w0);
  }

  lemma HeadPlanned(cfg: Config, m: Model, e: State)
    requires Progressive(cfg) && Steady(cfg, m, e) && Queued(e) != []
    ensures Planned(Schedule(cfg, e), Queued(e)[0].id) && !Empty(Schedule(cfg, e))
    ensures Schedule(cfg, e) ==
      AdmitPhase(cfg, PrefillPhase(cfg, DecodePhase(cfg, Work(e, cfg.budget, 0, {}, [], []), Ids(e.running)), 0))
  {
    hide Steady, DecodePhase, PrefillPhase, AdmitPhase, ForceHead, BreakStall, Schedule;
    var w0 := Work(e, cfg.budget, 0, {}, [], []);
    if e.running != [] {
      RunningHeadStays(cfg, m, e, w0);
    } else {
      WaitingHeadStays(cfg, m, e, w0);
    }
    var w3 := AdmitPhase(cfg, PrefillPhase(cfg, DecodePhase(cfg, w0, Ids(e.running)), 0));
    PlannedStays(w3, w3, Queued(e)[0].id);
    LastPhases(cfg, w3);
    ScheduleUnfolds(cfg, e);
  }

  lemma PlannedRuns(cfg: Config, w: Work, id: nat)
    requires cfg.bs > 0 && ItemsOk(w.st.running, w.decodes, w.chunks) && Planned(w, id)
    ensures Get(w.st.running, id).Some? && w.st.running != []
  {
    if id !in w.decodes {
      var c :| c in w.chunks && c.id == id;
      assert ChunkReady(Get(w.st.running, c.id), c);
    }
  }

  lemma PlanningItems(cfg: Config, m: Model, w: Work)
    requires cfg.bs > 0 && Planning(cfg, m, w)
    ensures ItemsOk(w.st.running, w.decodes, w.chunks)
  {
    hide Safe, Settled, ItemsOk;
  }

  lemma SteadyParts(cfg: Config, m: Model, e: State)
    requires Steady(cfg, m, e)
    ensures Safe(cfg, m, e) && Settled(e) && MidIsLast(e.running) && InOrder(e) && e.tree.nodes == map[] && Fits(cfg, e)
  {
    hide Safe, Settled, MidIsLast, InOrder, Fits;
  }

  lemma ProgressiveParts(cfg: Config)
    requires Progressive(cfg)
    ensures Allowed(cfg) && cfg.bs > 0 && cfg.chunked && !cfg.caching
  {
  }

  /** Once planned, the running head is still first, record and all, when the plan is made. */
  lemma PlannedKept(cfg: Config, m: Model, e: State)
    requires Allowed(cfg) && cfg.chunked && Safe(cfg, m, e) && Settled(e) && MidIsLast(e.running) && e.running != []
    requires var w0 := Work(e, cfg.budget, 0, {}, [], []);
      Planned(PrefillPhase(cfg, DecodePhase(cfg, w0, Ids(e.running)), 0), e.running[0].id)
    ensures var w := Schedule(cfg, e);
      && w.st.running != [] && w.st.running[0] == e.running[0]
      && !Empty(w) && Planned(w, e.running[0].id)
  {
    hide *;
    AllowedSize(cfg);
    var w0 := Work(e, cfg.budget, 0, {}, [], []);
    StartPlanning(cfg, m, e);
    AllDoneIsDecoding(cfg, m, e);
    StartDeciding(cfg, e);
    IdsDistinct(e);
    assert Ids(e.running)[0..] == Ids(e.running);
    DecodePhaseInOrder(cfg, w0, e.running, 0);
    DecodePhaseKeeps(cfg, m, w0, Ids(e.running));
    DecodePhaseSlices(cfg, w0, Ids(e.running));
    var w1 := DecodePhase(cfg, w0, Ids(e.running));
    NewestLeftIs(e, w1.st);
    PlanningDistinct(cfg, m, w1);
    Unsliced(w1);
    PrefillPhaseKeeps(cfg, m, w1, 0);
    var w2 := PrefillPhase(cfg, w1, 0);
    PlanningItems(cfg, m, w2);
    PlannedRuns(cfg, w2, e.running[0].id);
    AdmitPhaseExtends(cfg, w2);
    var w3 := AdmitPhase(cfg, w2);
    PlannedStays(w2, w3, e.running[0].id);
    LastPhases(cfg, w3);
    ScheduleUnfolds(cfg, e);
  }

  /** The running head is still first when the plan is made. */
  lemma RunningHeadKept(cfg: Config, m: Model, e: State)
    requires Progressive(cfg) && Steady(cfg, m, e) && e.running != []
    ensures Schedule(cfg, e).st.running != [] && Schedule(cfg, e).st.running[0] == e.running[0]
  {
    hide *;
    ProgressiveParts(cfg);
    SteadyParts(cfg, m, e);
    RunningHeadStays(cfg, m, e, Work(e, cfg.budget, 0, {}, [], []));
    PlannedKept(cfg, m, e);
  }

  lemma QueuedFirst(e: State)
    ensures e.running != [] ==> Queued(e) != [] && Queued(e)[0] == e.running[0]
    ensures e.running == [] && e.waiting != [] ==> Queued(e) != [] && Queued(e)[0] == e.waiting[0]
    ensures Queued(e) == [] <==> e.running == [] && e.waiting == []
  {
  }

  lemma WaitingStartsAtZero(cfg: Config, m: Model, e: State)
    requires Safe(cfg, m, e) && !cfg.caching && e.waiting != []
    ensures e.waiting[0].computed == 0
  {
    hide MemoryOk, OwnershipOk, ViewsOk, NodesOk, OutputsOk, IdsOk;
    assert WaitingOk(cfg, e.waiting[0]);
  }

  /** The oldest request is planned and heads the running list, with no computed position lost. */
  ghost predicate HeadGoes(cfg: Config, e: State)
    requires cfg.bs > 0
  {
    var w := Schedule(cfg, e);
    && Queued(e) != [] && !Empty(w) && Planned(w, Queued(e)[0].id) && w.st.running != []
    && TicketOf(w.st.running[0]) == TicketOf(Queued(e)[0])
    && w.st.running[0].computed >= Queued(e)[0].computed
    && Line(w.st) == Line(e)
  }

  lemma HeadGoesIs(cfg: Config, e: State)
    requires cfg.bs > 0 && Queued(e) != []
    ensures var w := Schedule(cfg, e);
      HeadGoes(cfg, e) <==>
        && !Empty(w) && Planned(w, Queued(e)[0].id) && w.st.running != []
        && TicketOf(w.st.running[0]) == TicketOf(Queued(e)[0])
        && w.st.running[0].computed >= Queued(e)[0].computed
        && Line(w.st) == Line(e)
  {
    hide Schedule, Line, Planned;
  }

  lemma HeadRuns(cfg: Config, m: Model, e: State)
    requires Progressive(cfg) && Steady(cfg, m, e) && Queued(e) != []
    ensures HeadGoes(cfg, e)
  {
    hide *;
    ProgressiveParts(cfg);
    SteadyParts(cfg, m, e);
    HeadPlanned(cfg, m, e);
    ScheduleIsExecutable(cfg, m, e);
    ScheduleInOrder(cfg, m, e);
    var w := Schedule(cfg, e);
    ExecutableItems(cfg, w);
    PlannedRuns(cfg, w, Queued(e)[0].id);
    FirstTicket(e);
    FirstTicket(w.st);
    QueuedFirst(e);
    QueuedFirst(w.st);
    if e.running != [] {
      RunningHeadKept(cfg, m, e);
    } else {
      WaitingStartsAtZero(cfg, m, e);
    }
    HeadGoesIs(cfg, e);
  }

  lemma ExecutableItems(cfg: Config, w: Work)
    requires cfg.bs > 0 && Executable(cfg, w.st, w.decodes, w.chunks)
    ensures ItemsOk(w.st.running, w.decodes, w.chunks)
  {
    hide ItemsOk;
  }

  lemma FirstTicket(e: State)
    ensures |Line(e)| == |Queued(e)|
    ensures Queued(e) != [] ==> Line(e)[0] == TicketOf(Queued(e)[0])
    ensures e.running != [] ==> Line(e) != [] && Line(e)[0] == TicketOf(e.running[0])
  {
  }

  // ---- a step

  lemma HeadFulfilled(w: Work, e2: State)
    requires w.st.running != [] && Planned(w, w.st.running[0].id)
    requires Evolved(w.st, e2) && AllFulfilled(w.st, e2, w.decodes, w.chunks)
    ensures e2.running != [] && TicketOf(e2.running[0]) == TicketOf(w.st.running[0])
    ensures e2.running[0].computed > w.st.running[0].computed
  {
    var id := w.st.running[0].id;
    assert Find(w.st.running, id) == 0;
    assert Grew(w.st.running[0], e2.running[0]);
    if id in w.decodes {
      assert Fulfilled(w.st, e2, id, true);
    } else {
      var c :| c in w.chunks && c.id == id;
      assert Fulfilled(w.st, e2, c.id, c.final);
    }
  }

  lemma {:induction false} EvolvedTickets(q: seq<Req>, q': seq<Req>)
    requires |q'| == |q| && forall i :: 0 <= i < |q| ==> Grew(q[i], q'[i])
    ensures Tickets(q') == Tickets(q)
  {
  }

  /** What happens to the oldest request in one step. */
  ghost predicate HeadAdvanced(m: Model, e: State, e': State) {
    && Queued(e) != []
    && var head := Queued(e)[0];
      || (e'.running != [] && TicketOf(e'.running[0]) == TicketOf(head) && e'.running[0].computed > head.computed)
      || exists r :: r in e'.done && TicketOf(r) == TicketOf(head) && r.status == Finished
  }

  /** e' is what retiring leaves of e2, whose head has advanced. */
  lemma HeadOutcome(m: Model, e: State, e2: State, e': State, before: seq<Req>)
    requires Queued(e) != [] && e2.running != []
    requires TicketOf(e2.running[0]) == TicketOf(Queued(e)[0]) && e2.running[0].computed > Queued(e)[0].computed
    requires e'.running == Unfinished(e2.running) && e'.done == before + Retired(e2.running)
    requires e2.running[0].IsFinished() ==> e2.running[0].status == Finished
    ensures HeadAdvanced(m, e, e')
  {
    var r := e2.running[0];
    if r.IsFinished() {
      var gone := r.(kv := None);
      assert Retired(e2.running)[0] == gone;
      assert gone in e'.done;
      assert TicketOf(gone) == TicketOf(r);
    } else {
      assert e'.running[0] == r;
    }
  }

  /** A step in which the oldest request goes. */
  lemma StepAdvances(cfg: Config, m: Model, e: State) returns (e2: State, e': State)
    requires Allowed(cfg) && Safe(cfg, m, e) && Settled(e) && Queued(e) != [] && HeadGoes(cfg, e)
    ensures Step(cfg, m, e) == Some(e')
    ensures HeadAdvanced(m, e, e')
    ensures e2.running != [] && TicketOf(e2.running[0]) == TicketOf(Queued(e)[0])
    ensures e2.running[0].computed > Queued(e)[0].computed
    ensures Tickets(e2.running) + Tickets(e'.waiting) == Line(e) && e'.running == Unfinished(e2.running)
  {
    hide *;
    AllowedSize(cfg);
    HeadGoesIs(cfg, e);
    var w := Schedule(cfg, e);
    e2, e' := StepSafe(cfg, m, e);
    SteppedIs(cfg, e, w, e2, e');
    HeadIs(w, Queued(e)[0]);
    HeadFulfilled(w, e2);
    EvolvedLine(w.st, e2);
    LineIs(w.st);
    FinishedHead(cfg, m, e2);
    HeadOutcome(m, e, e2, e', w.st.done);
  }

  /**
   Forward progress: the oldest unfinished request is never preempted; in every
   step its computed tokens strictly grow, or it finishes.
   */
  lemma HeadAdvances(cfg: Config, m: Model, e: State) returns (e2: State, e': State)
    requires Progressive(cfg) && Steady(cfg, m, e) && Queued(e) != []
    ensures Step(cfg, m, e) == Some(e')
    ensures HeadAdvanced(m, e, e')
    ensures e2.running != [] && TicketOf(e2.running[0]) == TicketOf(Queued(e)[0])
    ensures e2.running[0].computed > Queued(e)[0].computed
    ensures Tickets(e2.running) + Tickets(e'.waiting) == Line(e) && e'.running == Unfinished(e2.running)
  {
    hide *;
    ProgressiveParts(cfg);
    SteadyParts(cfg, m, e);
    HeadRuns(cfg, m, e);
    e2, e' := StepAdvances(cfg, m, e);
  }

  lemma HeadIs(w: Work, head: Req)
    requires w.st.running != [] && TicketOf(w.st.running[0]) == TicketOf(head)
    ensures w.st.running[0].id == head.id
  {
  }

  lemma LineIs(e: State)
    ensures Line(e) == Tickets(e.running) + Tickets(e.waiting)
  {
  }

  lemma EvolvedLine(e: State, e2: State)
    requires Evolved(e, e2)
    ensures Tickets(e2.running) == Tickets(e.running)
  {
    hide Grew, Tickets;
    EvolvedTickets(e.running, e2.running);
  }

  lemma FinishedHead(cfg: Config, m: Model, e2: State)
    requires Safe(cfg, m, e2)
    ensures e2.running != [] && e2.running[0].IsFinished() ==> e2.running[0].status == Finished
  {
    if e2.running != [] {
      SafeRunning(cfg, m, e2, 0);
      hide Safe, PagedOk;
    }
  }

  lemma WaitingHead(cfg: Config, m: Model, e: State)
    requires Safe(cfg, m, e) && e.waiting != []
    ensures WaitingOk(cfg, e.waiting[0])
  {
    hide MemoryOk, OwnershipOk, ViewsOk, NodesOk, OutputsOk, IdsOk, WaitingOk;
  }
}
