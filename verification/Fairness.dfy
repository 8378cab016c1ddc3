/**
 First come, first served, through preemption (chunked prefill on): schedule()
 never reorders running ++ waiting, only the newest running requests are
 preempted, and at most one running request is between two prefill chunks, the last.
 */
module Fairness {
  import opened Numbers
  import opened Blocks
  import opened Decoding
  import opened Options
  import opened Radix
  import opened Requests
  import opened Scheduling
  import opened Serving
  import opened Safety
  import opened SafetyAdmission
  import opened SafetyPlan
  import opened SafetySchedule
  import opened SafetyExec
  import opened SafetyRetire
  import opened Runs
  import opened Conservation

  /** The tickets of running ++ waiting, in order. */
  function Line(e: State): seq<Ticket> { Tickets(e.running) + Tickets(e.waiting) }

  ghost predicate Increasing(q: seq<Req>) {
    forall i, j :: 0 <= i < j < |q| ==> q[i].id < q[j].id
  }

  /** Queued requests are in arrival order. */
  ghost predicate InOrder(e: State) { Increasing(Queued(e)) }

  /** Only the last running request may be mid-prefill. */
  ghost predicate MidIsLast(q: seq<Req>) {
    forall i :: 0 <= i < |q| - 1 ==> q[i].status != Prefill
  }

  // ---- victims

  /** Only a suffix of the running list went back to the queue, in its order. */
  ghost predicate NewestLeft(e: State, e': State) {
    e'.running <= e.running && Line(e') == Line(e)
  }

  lemma PreemptNewest(e: State)
    requires e.running != []
    ensures var last := |e.running| - 1;
      Preempt(e, last).running == e.running[..last] && Line(Preempt(e, last)) == Line(e)
  {
    var last := |e.running| - 1;
    var r := e.running[last];
    assert e.running == e.running[..last] + [r];
    TicketsConcat(e.running[..last], [r]);
    TicketsConcat([r.Reset()], e.waiting);
    assert Tickets([r.Reset()]) == Tickets([r]);
    assert Without(e.running, last) == e.running[..last];
    hide FreeMany;
  }

  lemma NewestIsLast(q: seq<Req>, protected: set<nat>, keep: nat)
    requires keep <= |q|
    requires forall t :: 0 <= t < |q| ==> (q[t].id in protected <==> t < keep)
    ensures NewestUnprotected(q, protected) == if keep < |q| then Some(|q| - 1) else None
  {
  }

  /** With the first `keep` running requests protected and no other, victims are taken from the end. */
  lemma {:induction false} PreemptUntilTakesNewest(cfg: Config, e: State, needed: nat, protected: set<nat>, keep: nat)
    requires keep <= |e.running|
    requires forall t :: 0 <= t < |e.running| ==> (e.running[t].id in protected <==> t < keep)
    ensures var e' := PreemptUntil(cfg, e, needed, protected);
      && NewestLeft(e, e') && |e'.running| >= keep
      && (FreeBlocks(cfg, e') < needed ==> |e'.running| == keep)
    decreases |e.running|
  {
    hide Preempt, Line, NewestUnprotected;
    NewestIsLast(e.running, protected, keep);
    if FreeBlocks(cfg, e) < needed && keep < |e.running| {
      PreemptNewest(e);
      PreemptUntilTakesNewest(cfg, Preempt(e, |e.running| - 1), needed, protected, keep);
    }
  }

  lemma ReclaimQueue(cfg: Config, e: State, needed: nat)
    ensures ReclaimFor(cfg, e, needed).running == e.running && ReclaimFor(cfg, e, needed).waiting == e.waiting
  {
    hide Evict;
  }

  lemma MakeRoomTakesNewest(cfg: Config, e: State, needed: nat, protected: set<nat>, keep: nat)
    requires keep <= |e.running|
    requires forall t :: 0 <= t < |e.running| ==> (e.running[t].id in protected <==> t < keep)
    ensures var e' := MakeRoom(cfg, e, needed, protected);
      && NewestLeft(e, e') && |e'.running| >= keep
      && (cfg.preemption && FreeBlocks(cfg, e') < needed ==> |e'.running| == keep)
  {
    ReclaimQueue(cfg, e, needed);
    var e1 := ReclaimFor(cfg, e, needed);
    assert Line(e1) == Line(e);
    hide ReclaimFor, PreemptUntil, Line;
    PreemptUntilTakesNewest(cfg, e1, needed, protected, keep);
  }

  // ---- 1. decodes

  /** Phase 1 before its j-th request: all earlier ones are scheduled unless nothing is left to decide. */
  ghost predicate Deciding(cfg: Config, w: Work, r0: seq<Req>, j: nat) {
    && w.st.running <= r0 && j <= |r0|
    && (forall t :: j <= t < |r0| ==> r0[t].id !in w.scheduled)
    && (cfg.preemption && j < |w.st.running| ==> forall t :: 0 <= t < j ==> r0[t].id in w.scheduled)
  }

  /** All but the last request of a queue are past their prefill. */
  ghost predicate DoneButLast(q: seq<Req>) {
    forall t :: 0 <= t < |q| - 1 ==> q[t].PrefillDone()
  }

  lemma FindInPrefix(q: seq<Req>, r0: seq<Req>, j: nat)
    requires Distinct(r0) && q <= r0 && j < |r0|
    ensures Find(q, r0[j].id) == if j < |q| then j else |q|
  {
    var i := Find(q, r0[j].id);
    if i < |q| {
      assert q[i] == r0[i];
    }
    if j < |q| {
      assert q[j] == r0[j];
    }
  }

  lemma RoomForDecode(cfg: Config, w: Work, r0: seq<Req>, j: nat, needed: nat)
    requires Distinct(r0) && Deciding(cfg, w, r0, j) && j < |w.st.running|
    ensures var w' := w.(st := MakeRoom(cfg, w.st, needed + w.reserved, w.scheduled + {r0[j].id}));
      && NewestLeft(w.st, w'.st) && |w'.st.running| > j
      && (cfg.preemption && needed > Available(cfg, w') ==> |w'.st.running| == j + 1)
  {
    hide Line;
    if cfg.preemption {
      forall t | 0 <= t < |w.st.running|
        ensures w.st.running[t].id in w.scheduled + {r0[j].id} <==> t < j + 1
      {
        assert w.st.running[t] == r0[t];
      }
      MakeRoomTakesNewest(cfg, w.st, needed + w.reserved, w.scheduled + {r0[j].id}, j + 1);
    } else {
      ReclaimQueue(cfg, w.st, needed + w.reserved);
      SameLine(w.st, MakeRoom(cfg, w.st, needed + w.reserved, w.scheduled + {r0[j].id}));
    }
  }

  lemma SameLine(e: State, e': State)
    requires e'.running == e.running && e'.waiting == e.waiting
    ensures NewestLeft(e, e')
  {
  }

  lemma DecodeOneInOrder(cfg: Config, w: Work, r0: seq<Req>, j: nat)
    requires cfg.bs > 0 && Distinct(r0) && DoneButLast(r0) && Deciding(cfg, w, r0, j) && j < |r0|
    ensures var w' := DecodeOne(cfg, w, r0[j].id);
      Deciding(cfg, w', r0, j + 1) && NewestLeft(w.st, w'.st)
  {
    hide MakeRoom, Need, Line;
    FindInPrefix(w.st.running, r0, j);
    SameLine(w.st, w.st);
    if j < |w.st.running| && w.st.running[j].PrefillDone() {
      assert w.st.running[j] == r0[j];
      var needed := Need(cfg, r0[j], r0[j].computed + 1);
      if needed > Available(cfg, w) {
        RoomForDecode(cfg, w, r0, j, needed);
      }
    }
  }

  lemma {:induction false} DecodePhaseInOrder(cfg: Config, w: Work, r0: seq<Req>, j: nat)
    requires cfg.bs > 0 && Distinct(r0) && DoneButLast(r0) && Deciding(cfg, w, r0, j)
    ensures var w' := DecodePhase(cfg, w, Ids(r0)[j..]);
      NewestLeft(w.st, w'.st)
    decreases |r0| - j
  {
    hide Distinct, DoneButLast, Deciding, DecodeOne, Line;
    SameLine(w.st, w.st);
    DecidingBound(cfg, w, r0, j);
    if j < |r0| && w.budget > 0 {
      assert Ids(r0)[j..][0] == r0[j].id && Ids(r0)[j..][1..] == Ids(r0)[j + 1..];
      DecodeOneInOrder(cfg, w, r0, j);
      DecodePhaseInOrder(cfg, DecodeOne(cfg, w, r0[j].id), r0, j + 1);
    }
  }

  lemma DecidingBound(cfg: Config, w: Work, r0: seq<Req>, j: nat)
    requires Deciding(cfg, w, r0, j)
    ensures j <= |r0|
  {
  }

  // ---- 2. and 3. prefills and admission

  ghost predicate Leaves(chunks: seq<Slice>, id: nat) {
    exists c :: c in chunks && c.id == id && c.final
  }

  /** The first n running requests will not be mid-prefill after the step. */
  ghost predicate Settling(w: Work, n: int) {
    forall t :: 0 <= t < n && t < |w.st.running| ==>
      w.st.running[t].status != Prefill || Leaves(w.chunks, w.st.running[t].id)
  }

  /** No budget or no memory is left in this step. */
  ghost predicate Blocked(cfg: Config, w: Work) {
    w.budget <= 0 || Available(cfg, w) <= 0
  }

  /** All but the last running request settle, and the last one too unless the step is out of budget or memory. */
  ghost predicate OneOpen(cfg: Config, w: Work) {
    && Settling(w, |w.st.running| - 1)
    && (Settling(w, |w.st.running|) || Blocked(cfg, w))
  }

  /** A slice falls short of the prompt only by using up the budget or the memory. */
  lemma ShortSliceBlocks(cfg: Config, w: Work, r: Req)
    requires cfg.bs > 0 && cfg.chunked && r.computed <= |r.Table()| * cfg.bs && r.computed < r.PrefillTarget()
    ensures var c := MakeChunk(cfg, r, w.budget, Available(cfg, w));
      && (c.None? ==> Blocked(cfg, w))
      && (c.Some? && !c.value.final ==> Blocked(cfg, TakeChunk(cfg, w, r, c.value)))
  {
    var budget, available := w.budget, Available(cfg, w);
    var remaining := r.RemainingPrefill();
    if budget > 0 && available > 0 {
      var want := if remaining < budget then remaining else budget;
      var pages := |r.Table()| + available;
      assert pages * cfg.bs == |r.Table()| * cfg.bs + available * cfg.bs;
      MulMono(1, available, cfg.bs);
      if Need(cfg, r, r.computed + want) > available && want > pages * cfg.bs - r.computed {
        CeilDivUnique(pages * cfg.bs, cfg.bs, pages) by {
          assert (pages - 1) * cfg.bs == pages * cfg.bs - cfg.bs;
        }
      }
    }
  }

  lemma LeavesAppend(chunks: seq<Slice>, c: Slice, id: nat)
    ensures Leaves(chunks, id) ==> Leaves(chunks + [c], id)
    ensures c.id == id && c.final ==> Leaves(chunks + [c], id)
  {
    if Leaves(chunks, id) {
      var d :| d in chunks && d.id == id && d.final;
      assert d in chunks + [c];
    }
    assert c in chunks + [c];
  }

  lemma TakenSettles(cfg: Config, w: Work, r: Req, c: Slice, n: int)
    requires cfg.bs > 0 && Settling(w, n)
    ensures Settling(TakeChunk(cfg, w, r, c), n)
    ensures 0 <= n < |w.st.running| && w.st.running[n].id == c.id && c.final ==>
      Settling(TakeChunk(cfg, w, r, c), n + 1)
  {
    hide Leaves;
    forall id
      ensures Leaves(w.chunks, id) ==> Leaves(w.chunks + [c], id)
      ensures c.id == id && c.final ==> Leaves(w.chunks + [c], id)
    {
      LeavesAppend(w.chunks, c, id);
    }
  }

  lemma PrefillOneOpen(cfg: Config, m: Model, w: Work)
    requires cfg.bs > 0 && cfg.chunked && Planning(cfg, m, w) && w.st.running != []
    requires Settling(w, |w.st.running| - 1)
    ensures OneOpen(cfg, PrefillOne(cfg, w, w.st.running[|w.st.running| - 1]))
    ensures PrefillOne(cfg, w, w.st.running[|w.st.running| - 1]).st == w.st
  {
    hide Safe, PlanOk, MakeChunk, Leaves, Need, RunningOk;
    var n := |w.st.running| - 1;
    var r := w.st.running[n];
    DoneIsDecoding(cfg, m, w.st, r);
    RunningParts(cfg, r);
    var c := MakeChunk(cfg, r, w.budget, Available(cfg, w));
    if !r.PrefillDone() {
      ShortSliceBlocks(cfg, w, r);
      if c.Some? {
        ChunkFits(cfg, r, w.budget, Available(cfg, w));
        TakenSettles(cfg, w, r, c.value, n);
      }
    }
  }

  lemma {:induction false} PrefillPhaseOpen(cfg: Config, m: Model, w: Work, i: nat)
    requires cfg.bs > 0 && cfg.chunked && Planning(cfg, m, w) && DoneButLast(w.st.running) && i <= |w.st.running|
    requires Settling(w, |w.st.running| - 1) && (i == |w.st.running| ==> OneOpen(cfg, w))
    ensures OneOpen(cfg, PrefillPhase(cfg, w, i))
    decreases |w.st.running| - i
  {
    hide Planning, Settling, MakeChunk;
    if i < |w.st.running| && w.budget > 0 {
      if i < |w.st.running| - 1 {
        assert w.st.running[i].PrefillDone();
        PrefillPhaseOpen(cfg, m, w, i + 1);
      } else {
        PrefillOneOpen(cfg, m, w);
        var w1 := PrefillOne(cfg, w, w.st.running[i]);
        assert PrefillPhase(cfg, w, i) == PrefillPhase(cfg, w1, i + 1);
      }
    }
  }

  lemma LineAttach(cfg: Config, e: State)
    requires cfg.bs > 0 && e.waiting != []
    ensures Line(Attach(cfg, e)) == Line(e) && Attach(cfg, e).waiting != []
  {
    hide MatchBlocks, MatchTree, IncrefMany;
    assert e.waiting == [e.waiting[0]] + e.waiting[1..];
  }

  lemma LineAdmit(e: State)
    requires e.waiting != []
    ensures Line(Admit(e)) == Line(e)
  {
    assert e.waiting == [e.waiting[0]] + e.waiting[1..];
  }

  lemma AdmittedNeedsMemory(cfg: Config, r: Req)
    requires cfg.bs > 0 && WaitingOk(cfg, r)
    ensures Need(cfg, r, r.computed + 1) > 0
    ensures r.computed <= |r.Table()| * cfg.bs && r.computed < r.PrefillTarget()
  {
    CeilDivFits(r.computed + 1, cfg.bs, |r.Table()|);
  }

  lemma AdmitOne(cfg: Config, m: Model, w: Work, r: Req, c: Slice)
    requires cfg.bs > 0 && cfg.chunked && OneOpen(cfg, w) && !Blocked(cfg, w)
    requires w.st.waiting != [] && r == w.st.waiting[0].(status := Prefill)
    requires r.computed <= |r.Table()| * cfg.bs && r.computed < r.PrefillTarget()
    requires var w2 := w.(st := Admit(w.st)); MakeChunk(cfg, r, w2.budget, Available(cfg, w2)) == Some(c)
    ensures OneOpen(cfg, TakeChunk(cfg, w.(st := Admit(w.st)), r, c))
  {
    hide MakeChunk, Leaves, Need;
    var w2, n := w.(st := Admit(w.st)), |w.st.running|;
    assert Settling(w2, n);
    ShortSliceBlocks(cfg, w2, r);
    ChunkFits(cfg, r, w2.budget, Available(cfg, w2));
    TakenSettles(cfg, w2, r, c, n);
  }

  lemma OpenAfterAttach(cfg: Config, w: Work, e: State)
    requires OneOpen(cfg, w) && e.running == w.st.running && e.pool.free == w.st.pool.free
    ensures OneOpen(cfg, w.(st := e)) && (Blocked(cfg, w.(st := e)) <==> Blocked(cfg, w))
  {
    hide Leaves;
  }

  lemma {:induction false} AdmitPhaseOpen(cfg: Config, m: Model, w: Work)
    requires Allowed(cfg) && cfg.chunked && Planning(cfg, m, w) && OneOpen(cfg, w)
    ensures var w' := AdmitPhase(cfg, w);
      OneOpen(cfg, w') && Line(w'.st) == Line(w.st)
    decreases |w.st.waiting|
  {
    hide Planning, Attach, MakeChunk, Need, OneOpen, Line, Get, WaitingOk, Admit;
    if w.st.waiting != [] && w.budget > 0 && |w.st.running| < cfg.maxSeqs {
      var e := Attach(cfg, w.st);
      AttachPlans(cfg, m, w);
      LineAttach(cfg, w.st);
      AttachedFree(cfg, m, w);
      OpenAfterAttach(cfg, w, e);
      var w1 := w.(st := e);
      if Need(cfg, e.waiting[0], e.waiting[0].computed + 1) <= Available(cfg, w1) {
        var w2, r := w1.(st := Admit(e)), e.waiting[0].(status := Prefill);
        AdmitPlans(cfg, m, w1);
        LineAdmit(e);
        AdmitQueues(e);
        HeadIsWaiting(cfg, m, w1);
        AdmittedNeedsMemory(cfg, e.waiting[0]);
        AdmittedRoom(cfg, e.waiting[0]);
        AdmittedGetsAChunk(cfg, r, w.budget, Available(cfg, w2));
        var c := MakeChunk(cfg, r, w.budget, Available(cfg, w2)).value;
        ChunkFits(cfg, r, w.budget, Available(cfg, w2));
        AdmittedSlice(cfg, m, w2, r, c);
        AdmitOne(cfg, m, w1, r, c);
        AdmitPhaseOpen(cfg, m, TakeChunk(cfg, w2, r, c));
      }
    }
  }

  lemma AdmitQueues(e: State)
    requires e.waiting != []
    ensures Admit(e).running == e.running + [e.waiting[0].(status := Prefill)] && Admit(e).waiting == e.waiting[1..]
    ensures Admit(e).pool == e.pool
  {
  }

  lemma AttachedFree(cfg: Config, m: Model, w: Work)
    requires cfg.bs > 0 && Planning(cfg, m, w) && w.st.waiting != []
    ensures Attach(cfg, w.st).pool.free == w.st.pool.free && Attach(cfg, w.st).running == w.st.running
  {
    hide Safe, PlanOk;
    AttachSafe(cfg, m, w.st);
    hide MatchTree, MatchBlocks, IncrefMany;
  }

  lemma HeadIsWaiting(cfg: Config, m: Model, w: Work)
    requires cfg.bs > 0 && Planning(cfg, m, w) && w.st.waiting != []
    ensures WaitingOk(cfg, w.st.waiting[0])
  {
    hide PlanOk, MemoryOk, OwnershipOk, ViewsOk, NodesOk, OutputsOk, IdsOk, WaitingOk;
  }

  // ---- 4. the whole call

  lemma SettlingPrefix(w: Work, e: State, n: int, n': int)
    requires Settling(w, n) && e.running <= w.st.running && n' <= n
    ensures Settling(w.(st := e), n')
  {
    hide Leaves;
    forall t | 0 <= t < n' && t < |e.running|
      ensures e.running[t].status != Prefill || Leaves(w.chunks, e.running[t].id)
    {
      assert e.running[t] == w.st.running[t];
    }
  }

  lemma ForceHeadOpen(cfg: Config, w: Work)
    requires cfg.bs > 0 && Settling(w, |w.st.running| - 1) && Distinct(w.st.running)
    ensures var w' := ForceHead(cfg, w);
      && Settling(w', |w'.st.running| - 1) && NewestLeft(w.st, w'.st) && w'.chunks == w.chunks
      && (w.st.running != [] ==> w'.st.running != [])
  {
    hide MakeRoom, Need, Line, Settling;
    SameLine(w.st, w.st);
    if Empty(w) && w.st.running != [] && w.st.running[0].PrefillDone() && w.st.running[0].kv.Some? {
      var head := w.st.running[0];
      var needed := Need(cfg, head, head.computed + 1);
      MakeRoomTakesNewest(cfg, w.st, needed, {head.id}, 1);
      var e := MakeRoom(cfg, w.st, needed, {head.id});
      SettlingPrefix(w, e, |w.st.running| - 1, |e.running| - 1);
      SettlingPrefix(w, w.st, |w.st.running| - 1, |w.st.running| - 1);
      SettlingOnly(w.(st := e), ForceHead(cfg, w), |e.running| - 1);
      SettlingOnly(w, ForceHead(cfg, w), |w.st.running| - 1);
    }
  }

  lemma SettlingOnly(w: Work, w': Work, n: int)
    requires Settling(w, n)
    ensures w'.st.running == w.st.running && w'.chunks == w.chunks ==> Settling(w', n)
  {
  }

  lemma StartDeciding(cfg: Config, e: State)
    requires MidIsLast(e.running) && (forall r :: r in e.running ==> (r.PrefillDone() <==> r.status != Prefill))
    ensures Deciding(cfg, Work(e, cfg.budget, 0, {}, [], []), e.running, 0) && DoneButLast(e.running)
  {
  }

  lemma AllDoneIsDecoding(cfg: Config, m: Model, e: State)
    requires cfg.bs > 0 && Safe(cfg, m, e) && Settled(e)
    ensures forall r :: r in e.running ==> (r.PrefillDone() <==> r.status != Prefill)
  {
    hide Safe, Settled;
    forall r | r in e.running
      ensures r.PrefillDone() <==> r.status != Prefill
    {
      DoneIsDecoding(cfg, m, e, r);
    }
  }

  lemma PrefixStillMid(e: State, e': State)
    requires MidIsLast(e.running) && e'.running <= e.running
    ensures MidIsLast(e'.running)
  {
    forall i | 0 <= i < |e'.running| - 1
      ensures e'.running[i].status != Prefill
    {
      assert e'.running[i] == e.running[i];
    }
  }

  lemma MidSettles(cfg: Config, w: Work)
    requires MidIsLast(w.st.running)
    ensures Settling(w, |w.st.running| - 1)
    ensures w.st.running == [] ==> OneOpen(cfg, w)
  {
  }

  /** Phases 1 to 3. */
  lemma PhasesInOrder(cfg: Config, m: Model, e: State) returns (w3: Work)
    requires Allowed(cfg) && cfg.chunked && Safe(cfg, m, e) && Settled(e) && MidIsLast(e.running)
    ensures w3 == AdmitPhase(cfg,
      PrefillPhase(cfg, DecodePhase(cfg, Work(e, cfg.budget, 0, {}, [], []), Ids(e.running)), 0))
    ensures Planning(cfg, m, w3) && OneOpen(cfg, w3) && Line(w3.st) == Line(e)
  {
    hide *;
    var w0 := Work(e, cfg.budget, 0, {}, [], []);
    AllowedSize(cfg);
    StartPlanning(cfg, m, e);
    AllDoneIsDecoding(cfg, m, e);
    StartDeciding(cfg, e);
    IdsDistinct(e);
    assert Ids(e.running)[0..] == Ids(e.running);
    DecodePhaseInOrder(cfg, w0, e.running, 0);
    DecodePhaseKeeps(cfg, m, w0, Ids(e.running));
    DecodePhaseSlices(cfg, w0, Ids(e.running));
    var w1 := DecodePhase(cfg, w0, Ids(e.running));
    NewestLeftIs(e, w1.st);
    PrefixStillMid(e, w1.st);
    PlanningDistinct(cfg, m, w1);
    PlanningParts(cfg, m, w1);
    AllDoneIsDecoding(cfg, m, w1.st);
    StartDeciding(cfg, w1.st);
    MidSettles(cfg, w1);
    Unsliced(w1);
    PrefillPhaseKeeps(cfg, m, w1, 0);
    PrefillPhaseOpen(cfg, m, w1, 0);
    var w2 := PrefillPhase(cfg, w1, 0);
    AdmitPhaseKeeps(cfg, m, w2);
    AdmitPhaseOpen(cfg, m, w2);
    w3 := AdmitPhase(cfg, w2);
  }

  lemma NewestLeftIs(e: State, e': State)
    requires NewestLeft(e, e')
    ensures e'.running <= e.running && Line(e') == Line(e)
  {
  }

  lemma PlanningParts(cfg: Config, m: Model, w: Work)
    requires cfg.bs > 0 && Planning(cfg, m, w)
    ensures Safe(cfg, m, w.st) && Settled(w.st)
  {
    hide Safe, Settled, PlanOk;
  }

  /** schedule() never reorders the line, and lets only the last running request stay mid-prefill. */
  lemma ScheduleInOrder(cfg: Config, m: Model, e: State)
    requires Allowed(cfg) && cfg.chunked && Safe(cfg, m, e) && Settled(e) && MidIsLast(e.running)
    ensures var w := Schedule(cfg, e);
      Line(w.st) == Line(e) && Settling(w, |w.st.running| - 1)
  {
    var w3 := PhasesInOrder(cfg, m, e);
    hide *;
    AllowedSize(cfg);
    OneOpenIs(cfg, w3);
    BreakStallKeeps(cfg, m, w3);
    BreakStallPlan(cfg, w3);
    var w4 := BreakStall(cfg, w3);
    StallLine(w3.st, w4.st);
    SettlingOnly(w3, w4, |w3.st.running| - 1);
    PlanningDistinct(cfg, m, w4);
    ForceHeadOpen(cfg, w4);
    NewestLeftIs(w4.st, ForceHead(cfg, w4).st);
    ScheduleUnfolds(cfg, e);
  }

  lemma StallLine(e: State, e': State)
    requires e'.running == e.running && e'.waiting == e.waiting
    ensures Line(e') == Line(e)
  {
  }

  lemma OneOpenIs(cfg: Config, w: Work)
    requires OneOpen(cfg, w)
    ensures Settling(w, |w.st.running| - 1)
  {
  }

  lemma BreakStallPlan(cfg: Config, w: Work)
    requires cfg.bs > 0
    ensures BreakStall(cfg, w).chunks == w.chunks && BreakStall(cfg, w).decodes == w.decodes
  {
    hide Reclaim;
  }

  // ---- runs

  lemma OrderFromLine(e: State, e': State)
    requires Line(e') == Line(e) && InOrder(e)
    ensures InOrder(e')
  {
    var q, q' := Queued(e), Queued(e');
    TicketsConcat(e.running, e.waiting);
    TicketsConcat(e'.running, e'.waiting);
    assert |q'| == |Line(e')| == |q|;
    forall i, j | 0 <= i < j < |q'|
      ensures q'[i].id < q'[j].id
    {
      assert Line(e)[i] == TicketOf(q[i]) == TicketOf(q'[i]);
      assert Line(e)[j] == TicketOf(q[j]) == TicketOf(q'[j]);
    }
  }

  lemma {:induction false} UnfinishedInOrder(a: seq<Req>, b: seq<Req>)
    requires Increasing(a + b)
    ensures Increasing(Unfinished(a) + b)
    decreases |a|
  {
    if a == [] {
      assert Unfinished(a) + b == a + b;
    } else {
      var rest, u := a[1..], Unfinished(a[1..]);
      assert Unfinished(a) == (if a[0].IsFinished() then [] else [a[0]]) + u;
      FirstIsLeast(a, b);
      hide Unfinished, Increasing;
      UnfinishedInOrder(rest, b);
      IncreasingCons(a[0], u + b);
      assert [a[0]] + u + b == [a[0]] + (u + b);
      assert [] + u == u;
    }
  }

  lemma FirstIsLeast(a: seq<Req>, b: seq<Req>)
    requires Increasing(a + b) && a != []
    ensures Increasing(a[1..] + b)
    ensures forall x :: x in a[1..] + b ==> a[0].id < x.id
  {
    var q, rest := a + b, a[1..] + b;
    assert q == [a[0]] + rest;
    forall i | 0 <= i < |rest|
      ensures rest[i] == q[i + 1] && q[0].id < rest[i].id
    {
    }
    forall i, j | 0 <= i < j < |rest|
      ensures rest[i].id < rest[j].id
    {
      assert q[i + 1].id < q[j + 1].id;
    }
  }

  lemma IncreasingCons(r: Req, q: seq<Req>)
    requires Increasing(q) && forall x :: x in q ==> r.id < x.id
    ensures Increasing([r] + q)
  {
  }

  lemma WithoutInOrder(q: seq<Req>, k: nat)
    requires k < |q| && Increasing(q)
    ensures Increasing(Without(q, k))
  {
    var w := Without(q, k);
    forall i, j | 0 <= i < j < |w|
      ensures w[i].id < w[j].id
    {
      var i', j' := if i < k then i else i + 1, if j < k then j else j + 1;
      assert w[i] == q[i'] && w[j] == q[j'];
    }
  }

  /** A finished step leaves nobody but the last running request mid-prefill. */
  lemma EvolvedMid(w: Work, e2: State)
    requires Distinct(w.st.running) && Settling(w, |w.st.running| - 1)
    requires Evolved(w.st, e2) && AllFulfilled(w.st, e2, w.decodes, w.chunks)
    ensures MidIsLast(e2.running)
  {
    forall t | 0 <= t < |e2.running| - 1
      ensures e2.running[t].status != Prefill
    {
      assert Grew(w.st.running[t], e2.running[t]);
      if Leaves(w.chunks, w.st.running[t].id) {
        var c :| c in w.chunks && c.id == w.st.running[t].id && c.final;
        assert Fulfilled(w.st, e2, c.id, true);
      }
    }
  }

  lemma {:induction false} UnfinishedMid(q: seq<Req>)
    requires MidIsLast(q)
    ensures MidIsLast(Unfinished(q))
    decreases |q|
  {
    if q != [] {
      assert forall i :: 0 <= i < |q[1..]| ==> q[1..][i] == q[i + 1];
      UnfinishedMid(q[1..]);
      var u := Unfinished(q[1..]);
      if |u| > 0 {
        UnfinishedShorter(q[1..]);
        assert q[0].status != Prefill;
      }
      assert forall i :: 0 < i <= |u| ==> ([q[0]] + u)[i] == u[i - 1];
    }
  }

  lemma EvolvedInOrder(e: State, e2: State)
    requires InOrder(e) && Evolved(e, e2)
    ensures InOrder(e2)
  {
    var q, q' := Queued(e), Queued(e2);
    forall i | 0 <= i < |q|
      ensures q'[i].id == q[i].id
    {
      if i < |e.running| {
        assert Grew(e.running[i], e2.running[i]);
      }
    }
  }

  /** A step keeps the order of arrival and the single open prefill. */
  lemma StepInOrder(cfg: Config, m: Model, e: State)
    requires Allowed(cfg) && cfg.chunked && Safe(cfg, m, e) && Settled(e) && MidIsLast(e.running) && InOrder(e)
    ensures Step(cfg, m, e).Some?
    ensures InOrder(Step(cfg, m, e).value) && MidIsLast(Step(cfg, m, e).value.running)
  {
    hide *;
    AllowedSize(cfg);
    var e2, e' := StepSafe(cfg, m, e);
    var w := Schedule(cfg, e);
    ScheduleInOrder(cfg, m, e);
    ScheduleIsExecutable(cfg, m, e);
    OrderFromLine(e, w.st);
    SafeDistinct(cfg, m, w.st);
    if Empty(w) {
      EmptyMid(w);
    } else {
      SteppedIs(cfg, e, w, e2, e');
      EvolvedMid(w, e2);
      UnfinishedMid(e2.running);
      EvolvedInOrder(w.st, e2);
      EvolvedQueues(w.st, e2);
      OrderIs(e2, e2);
      UnfinishedInOrder(e2.running, e2.waiting);
      OrderIs(e', e2);
    }
  }

  lemma SafeDistinct(cfg: Config, m: Model, e: State)
    requires Safe(cfg, m, e)
    ensures Distinct(e.running)
  {
    hide MemoryOk, ShapesOk, OwnershipOk, ViewsOk, NodesOk, OutputsOk, IdsOk;
    RunningDistinct(e);
  }

  lemma OrderIs(e: State, e2: State)
    ensures InOrder(e) <==> Increasing(e.running + e.waiting)
  {
  }

  lemma SteppedIs(cfg: Config, e: State, w: Work, e2: State, e': State)
    requires cfg.bs > 0 && Stepped(cfg, e, w, e2, e')
    ensures Evolved(w.st, e2) && AllFulfilled(w.st, e2, w.decodes, w.chunks)
    ensures e'.running == Unfinished(e2.running) && e'.waiting == w.st.waiting && e'.nextId == w.st.nextId
    ensures e'.done == w.st.done + Retired(e2.running)
  {
    hide Schedule, Evolved, AllFulfilled;
  }

  lemma EmptyMid(w: Work)
    requires Empty(w) && Settling(w, |w.st.running| - 1)
    ensures MidIsLast(w.st.running)
  {
  }

  lemma SubmitInOrder(cfg: Config, e: State, prompt: seq<Token>, maxTokens: int, ignoreEos: bool)
    requires InOrder(e) && IdsOk(e) && MidIsLast(e.running)
    ensures var e' := Submit(cfg, e, prompt, maxTokens, ignoreEos);
      InOrder(e') && MidIsLast(e'.running)
  {
    hide Distinct;
    var e' := Submit(cfg, e, prompt, maxTokens, ignoreEos);
    if e' != e {
      var r := e'.waiting[|e.waiting|];
      assert Queued(e') == Queued(e) + [r];
      forall i | 0 <= i < |Queued(e)|
        ensures Queued(e)[i].id < r.id
      {
        assert Queued(e)[i] in Queued(e);
      }
    }
  }

  lemma AbortInOrder(e: State, id: nat)
    requires InOrder(e) && MidIsLast(e.running)
    ensures InOrder(Abort(e, id)) && MidIsLast(Abort(e, id).running)
  {
    hide FreeMany, Find;
    var i, j := Find(e.waiting, id), Find(e.running, id);
    AbortUnknown(e, id);
    if i < |e.waiting| || j < |e.running| {
      var k := if i < |e.waiting| then |e.running| + i else j;
      WithoutConcat(e.running, e.waiting, if i < |e.waiting| then i else j);
      assert Queued(Abort(e, id)) == Without(Queued(e), k);
      WithoutInOrder(Queued(e), k);
    }
  }

  /**
   First come, first served: in every reachable state running ++ waiting is in
   arrival order, and only the last running request may be mid-prefill.
   */
  lemma {:induction false} RunInOrder(cfg: Config, m: Model, events: seq<Event>)
    requires Allowed(cfg) && cfg.chunked
    ensures Run(cfg, m, events).Some?
    ensures var e := Run(cfg, m, events).value;
      InOrder(e) && MidIsLast(e.running)
    decreases |events|
  {
    hide Safe, Settled, Step, Abort, Submit, InOrder, MidIsLast;
    RunSafe(cfg, m, events);
    if events == [] {
      InitInOrder(cfg, m);
    } else {
      var before, last := events[..|events| - 1], events[|events| - 1];
      RunSafe(cfg, m, before);
      RunInOrder(cfg, m, before);
      var e := Run(cfg, m, before).value;
      match last
      case Add(prompt, maxTokens, ignoreEos) =>
        SafeIds(cfg, m, e);
        SubmitInOrder(cfg, e, prompt, maxTokens, ignoreEos);
      case Cancel(id) =>
        AbortInOrder(e, id);
      case Tick =>
        StepInOrder(cfg, m, e);
    }
  }

  lemma SafeIds(cfg: Config, m: Model, e: State)
    requires Safe(cfg, m, e)
    ensures IdsOk(e)
  {
    hide MemoryOk, ShapesOk, OwnershipOk, ViewsOk, NodesOk, OutputsOk, IdsOk;
  }

  lemma InitInOrder(cfg: Config, m: Model)
    ensures InOrder(Init(cfg, m)) && MidIsLast(Init(cfg, m).running)
  {
  }

  // ---- every call that makes room

  /** A call of _make_room: the state, the blocks needed, and who is spared. */
  datatype RoomCall = RoomCall(st: State, needed: nat, protected: set<nat>)

  /** The call a decode makes, if its next block is not free. */
  function DecodeCall(cfg: Config, w: Work, id: nat): seq<RoomCall>
    requires cfg.bs > 0
  {
    var i := Find(w.st.running, id);
    if i == |w.st.running| || !w.st.running[i].PrefillDone() then []
    else
      var needed := Need(cfg, w.st.running[i], w.st.running[i].computed + 1);
      if needed <= Available(cfg, w) then [] else [RoomCall(w.st, needed + w.reserved, w.scheduled + {id})]
  }

  lemma DecodeCallIs(cfg: Config, w: Work, id: nat)
    requires cfg.bs > 0
    ensures var calls := DecodeCall(cfg, w, id);
      DecodeOne(cfg, w, id).st == if calls == [] then w.st
        else MakeRoom(cfg, calls[0].st, calls[0].needed, calls[0].protected)
  {
    hide MakeRoom, Need;
  }

  ghost function DecodeCalls(cfg: Config, w: Work, ids: seq<nat>): seq<RoomCall>
    requires cfg.bs > 0
    decreases |ids|
  {
    if ids == [] || w.budget <= 0 then []
    else DecodeCall(cfg, w, ids[0]) + DecodeCalls(cfg, DecodeOne(cfg, w, ids[0]), ids[1..])
  }

  /** The call the forward-progress phase makes for the oldest running request. */
  function HeadCall(cfg: Config, w: Work): seq<RoomCall>
    requires cfg.bs > 0
  {
    if Empty(w) && w.st.running != [] && w.st.running[0].PrefillDone() && w.st.running[0].kv.Some? then
      var head := w.st.running[0];
      var needed := Need(cfg, head, head.computed + 1);
      if needed > |w.st.pool.free| then [RoomCall(w.st, needed, {head.id})] else []
    else []
  }

  lemma HeadCallIs(cfg: Config, w: Work)
    requires cfg.bs > 0
    ensures var calls := HeadCall(cfg, w);
      ForceHead(cfg, w).st == if calls == [] then w.st
        else MakeRoom(cfg, calls[0].st, calls[0].needed, calls[0].protected)
  {
    hide MakeRoom, Need;
  }

  /** All calls of _make_room in one schedule(). */
  ghost function RoomCalls(cfg: Config, e: State): seq<RoomCall>
    requires cfg.bs > 0
  {
    var w0 := Work(e, cfg.budget, 0, {}, [], []);
    var w1 := DecodePhase(cfg, w0, Ids(e.running));
    DecodeCalls(cfg, w0, Ids(e.running)) + HeadCall(cfg, BreakStall(cfg, AdmitPhase(cfg, PrefillPhase(cfg, w1, 0))))
  }

  /** The call's victims are the last of the running list, and they wait in their old order. */
  ghost predicate TakesNewest(cfg: Config, c: RoomCall) { NewestLeft(c.st, MakeRoom(cfg, c.st, c.needed, c.protected)) }

  lemma DecodeCallTakesNewest(cfg: Config, w: Work, r0: seq<Req>, j: nat)
    requires cfg.bs > 0 && Distinct(r0) && Deciding(cfg, w, r0, j) && j < |r0|
    ensures forall c :: c in DecodeCall(cfg, w, r0[j].id) ==> TakesNewest(cfg, c)
  {
    hide MakeRoom, Need, Line;
    FindInPrefix(w.st.running, r0, j);
    if j < |w.st.running| {
      assert w.st.running[j] == r0[j];
      RoomForDecode(cfg, w, r0, j, Need(cfg, r0[j], r0[j].computed + 1));
    }
  }

  lemma {:induction false} DecodeCallsTakeNewest(cfg: Config, w: Work, r0: seq<Req>, j: nat)
    requires cfg.bs > 0 && Distinct(r0) && DoneButLast(r0) && Deciding(cfg, w, r0, j) && j <= |r0|
    ensures forall c :: c in DecodeCalls(cfg, w, Ids(r0)[j..]) ==> TakesNewest(cfg, c)
    decreases |r0| - j
  {
    hide Distinct, DoneButLast, Deciding, DecodeOne, DecodeCall, TakesNewest;
    if j < |r0| && w.budget > 0 {
      assert Ids(r0)[j..][0] == r0[j].id && Ids(r0)[j..][1..] == Ids(r0)[j + 1..];
      DecodeCallTakesNewest(cfg, w, r0, j);
      DecodeOneInOrder(cfg, w, r0, j);
      DecodeCallsTakeNewest(cfg, DecodeOne(cfg, w, r0[j].id), r0, j + 1);
    }
  }

  lemma HeadCallTakesNewest(cfg: Config, w: Work)
    requires cfg.bs > 0 && Distinct(w.st.running)
    ensures forall c :: c in HeadCall(cfg, w) ==> TakesNewest(cfg, c)
  {
    hide MakeRoom, Need, Line;
    if HeadCall(cfg, w) != [] {
      var head := w.st.running[0];
      MakeRoomTakesNewest(cfg, w.st, Need(cfg, head, head.computed + 1), {head.id}, 1);
    }
  }

  /** Newest first: in every reachable state, every victim of every call that makes room is the last running request. */
  lemma VictimsAreNewest(cfg: Config, m: Model, events: seq<Event>, c: RoomCall)
    requires Allowed(cfg) && cfg.chunked && Run(cfg, m, events).Some? && c in RoomCalls(cfg, Run(cfg, m, events).value)
    ensures TakesNewest(cfg, c)
  {
    AllowedSize(cfg);
    hide *;
    RunSafe(cfg, m, events);
    RunInOrder(cfg, m, events);
    var e := Run(cfg, m, events).value;
    CallsTakeNewest(cfg, m, e, c);
  }

  lemma CallsTakeNewest(cfg: Config, m: Model, e: State, c: RoomCall)
    requires Allowed(cfg) && cfg.bs > 0 && cfg.chunked && Safe(cfg, m, e) && Settled(e) && MidIsLast(e.running)
    requires c in RoomCalls(cfg, e)
    ensures TakesNewest(cfg, c)
  {
    var w0 := Work(e, cfg.budget, 0, {}, [], []);
    var w3 := AdmitPhase(cfg, PrefillPhase(cfg, DecodePhase(cfg, w0, Ids(e.running)), 0));
    assert c in DecodeCalls(cfg, w0, Ids(e.running)) || c in HeadCall(cfg, BreakStall(cfg, w3));
    assert Ids(e.running)[0..] == Ids(e.running);
    hide *;
    StartPlanning(cfg, m, e);
    AllDoneIsDecoding(cfg, m, e);
    StartDeciding(cfg, e);
    DecodeCallsTakeNewest(cfg, w0, e.running, 0);
    var w := PhasesInOrder(cfg, m, e);
    BreakStallKeeps(cfg, m, w);
    PlanningDistinct(cfg, m, BreakStall(cfg, w));
    HeadCallTakesNewest(cfg, BreakStall(cfg, w));
  }
}
