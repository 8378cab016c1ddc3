/** One turn of each planning loop, unfolded once for the scheduler object. */
module ScheduleFacts {
  import opened Numbers
  import opened Decoding
  import opened Options
  import opened Radix
  import opened Requests
  import opened Scheduling
  import opened Safety
  import opened SafetyAdmission
  import opened SafetyPlan
  import opened SafetySchedule

  // ---- admission

  predicate MayAdmit(cfg: Config, w: Work) {
    w.st.waiting != [] && w.budget > 0 && |w.st.running| < cfg.maxSeqs
  }

  lemma MayAdmitIs(cfg: Config, w: Work)
    ensures MayAdmit(cfg, w) <==> w.st.waiting != [] && w.budget > 0 && |w.st.running| < cfg.maxSeqs
  {
  }

  lemma AdmitStops(cfg: Config, w: Work)
    requires cfg.bs > 0 && !MayAdmit(cfg, w)
    ensures AdmitPhase(cfg, w) == w
  {
    hide Attach, MakeChunk, Need;
  }

  /** The head of the queue admitted: the state, its record and its slice. */
  ghost predicate Admitted(cfg: Config, w: Work, e: State, r: Req, e2: State)
    requires cfg.bs > 0
  {
    && w.st.waiting != [] && e == Attach(cfg, w.st) && e.waiting != []
    && r == e.waiting[0].(status := Prefill) && e2 == Admit(e)
  }

  lemma AdmittedIs(cfg: Config, w: Work, e: State, r: Req, e2: State)
    requires cfg.bs > 0 && Admitted(cfg, w, e, r, e2)
    ensures w.st.waiting != [] && e == Attach(cfg, w.st) && e.waiting != []
    ensures r == e.waiting[0].(status := Prefill) && r.status == Prefill
    ensures e2 == e.(running := e.running + [r], waiting := e.waiting[1..])
    ensures e2.running[|e2.running| - 1] == r && ([r] + e.waiting[1..])[1..] == e.waiting[1..]
  {
    hide Attach;
  }

  lemma AdmitTurn(cfg: Config, m: Model, w: Work) returns (e: State, r: Req, e2: State)
    requires cfg.bs > 0 && Planning(cfg, m, w) && MayAdmit(cfg, w)
    ensures Admitted(cfg, w, e, r, e2)
    ensures e.pool.free == w.st.pool.free && e.running == w.st.running && r.kv.Some?
    ensures Available(cfg, w.(st := e2)) == Available(cfg, w)
    ensures Need(cfg, e.waiting[0], e.waiting[0].computed + 1) > Available(cfg, w) ==>
      AdmitPhase(cfg, w) == w.(st := e)
    ensures Need(cfg, e.waiting[0], e.waiting[0].computed + 1) <= Available(cfg, w) ==>
      && e2.pool == e.pool && e2.running == e.running + [r] && e2.waiting == e.waiting[1..] && Safe(cfg, m, e2)
      && match MakeChunk(cfg, r, w.budget, Available(cfg, w))
         case None => AdmitPhase(cfg, w) == w.(st := RollBack(e2))
         case Some(c) =>
           AdmitPhase(cfg, w) == AdmitPhase(cfg, TakeChunk(cfg, w.(st := e2), r, c))
           && Planning(cfg, m, TakeChunk(cfg, w.(st := e2), r, c))
  {
    hide Planning, Attach, RollBack, MakeChunk, Get, Need, Safe;
    PlanningIs(cfg, m, w);
    AttachPlans(cfg, m, w);
    AttachSafe(cfg, m, w.st);
    e := Attach(cfg, w.st);
    r := e.waiting[0].(status := Prefill);
    e2 := Admit(e);
    var w1, w2 := w.(st := e), w.(st := e2);
    if Need(cfg, e.waiting[0], e.waiting[0].computed + 1) <= Available(cfg, w1) {
      AdmitPlans(cfg, m, w1);
      PlanningIs(cfg, m, w2);
      assert w2.st.running[|w2.st.running| - 1] == r;
      var c := MakeChunk(cfg, r, w.budget, Available(cfg, w2));
      if c.Some? {
        ChunkFits(cfg, r, w.budget, Available(cfg, w2));
        AdmittedSlice(cfg, m, w2, r, c.value);
      }
    }
  }

  lemma PlanningIs(cfg: Config, m: Model, w: Work)
    requires cfg.bs > 0
    ensures Planning(cfg, m, w) <==> Safe(cfg, m, w.st) && Settled(w.st) && PlanOk(cfg, w)
  {
    hide Safe, Settled, PlanOk;
  }

  // ---- decodes

  /** A request that was running when the step began still runs, or has been preempted since. */
  ghost predicate Tracked(e: State, id: nat) {
    Find(e.running, id) < |e.running| || exists r :: r in e.waiting && r.id == id && r.status == Preempted
  }

  lemma {:induction false} FindWithout(q: seq<Req>, i: nat, id: nat)
    requires i < |q| && q[i].id != id && Find(q, id) < |q|
    ensures Find(Without(q, i), id) < |Without(q, i)|
  {
    var k, w := Find(q, id), Without(q, i);
    var k' := if k < i then k else k - 1;
    assert w[k'] == q[k];
  }

  lemma PreemptTracks(e: State, i: nat, id: nat)
    requires i < |e.running| && Tracked(e, id)
    ensures Tracked(Preempt(e, i), id)
  {
    var e' := Preempt(e, i);
    if Find(e.running, id) < |e.running| {
      if e.running[i].id == id {
        assert e'.waiting[0].id == id && e'.waiting[0].status == Preempted;
        assert e'.waiting[0] in e'.waiting;
      } else {
        FindWithout(e.running, i, id);
      }
    } else {
      var r :| r in e.waiting && r.id == id && r.status == Preempted;
      assert r in e'.waiting;
    }
  }

  lemma {:induction false} PreemptUntilTracks(cfg: Config, e: State, needed: nat, protected: set<nat>, id: nat)
    requires Tracked(e, id)
    ensures Tracked(PreemptUntil(cfg, e, needed, protected), id)
    decreases |e.running|
  {
    hide Tracked, NewestUnprotected;
    var v := NewestUnprotected(e.running, protected);
    if FreeBlocks(cfg, e) < needed && v.Some? {
      PreemptTracks(e, v.value, id);
      PreemptUntilTracks(cfg, Preempt(e, v.value), needed, protected, id);
    }
  }

  lemma MakeRoomTracks(cfg: Config, e: State, needed: nat, protected: set<nat>, id: nat)
    requires Tracked(e, id)
    ensures Tracked(MakeRoom(cfg, e, needed, protected), id)
  {
    hide Evict, PreemptUntil;
    PreemptUntilTracks(cfg, ReclaimFor(cfg, e, needed), needed, protected, id);
  }

  lemma DecodeOneTracks(cfg: Config, w: Work, id: nat, other: nat)
    requires cfg.bs > 0 && Tracked(w.st, other)
    ensures Tracked(DecodeOne(cfg, w, id).st, other)
  {
    hide MakeRoom, Tracked, Need;
    var i := Find(w.st.running, id);
    if i < |w.st.running| && w.st.running[i].PrefillDone() {
      var r := w.st.running[i];
      MakeRoomTracks(cfg, w.st, Need(cfg, r, r.computed + 1) + w.reserved, w.scheduled + {id}, other);
    }
  }

  /** The decode of one request that still runs and is past its prefill. */
  lemma DecodeTurn(cfg: Config, m: Model, w: Work, id: nat)
    requires cfg.bs > 0 && Planning(cfg, m, w)
    ensures var i := Find(w.st.running, id);
      if i == |w.st.running| || !w.st.running[i].PrefillDone() then DecodeOne(cfg, w, id) == w
      else
        var r := w.st.running[i];
        var needed := Need(cfg, r, r.computed + 1);
        var e := MakeRoom(cfg, w.st, needed + w.reserved, w.scheduled + {id});
        && Get(e.running, id) == Some(r)
        && DecodeOne(cfg, w, id) ==
             if needed <= Available(cfg, w) then TakeDecode(w, id, needed)
             else if needed <= Available(cfg, w.(st := e)) then TakeDecode(w.(st := e), id, needed)
             else w.(st := e)
  {
    hide MakeRoom, Need, Safe, Settled, PlanOk, Find;
    PlanningIs(cfg, m, w);
    hide Planning;
    var i := Find(w.st.running, id);
    if i < |w.st.running| && w.st.running[i].PrefillDone() {
      var r := w.st.running[i];
      var needed := Need(cfg, r, r.computed + 1);
      MakeRoomKeeps(cfg, m, w.st, needed + w.reserved, w.scheduled + {id});
    }
  }

  lemma DecodesTrack(cfg: Config, w: Work, id: nat)
    requires cfg.bs > 0
    ensures forall other :: Tracked(w.st, other) ==> Tracked(DecodeOne(cfg, w, id).st, other)
  {
    hide *;
    forall other | Tracked(w.st, other)
      ensures Tracked(DecodeOne(cfg, w, id).st, other)
    {
      DecodeOneTracks(cfg, w, id, other);
    }
  }

  lemma ScheduledGrows(ids: seq<nat>, k: nat, before: set<nat>, after: set<nat>)
    requires k < |ids| && after <= before + {ids[k]}
    requires forall i, j :: 0 <= i < j < |ids| ==> ids[i] != ids[j]
    requires forall j :: k <= j < |ids| ==> ids[j] !in before
    ensures forall j :: k < j < |ids| ==> ids[j] !in after
  {
  }

  lemma DecodesStop(cfg: Config, w: Work, ids: seq<nat>)
    requires cfg.bs > 0
    ensures ids == [] || w.budget <= 0 ==> DecodePhase(cfg, w, ids) == w
    ensures ids != [] && w.budget > 0 ==>
      DecodePhase(cfg, w, ids) == DecodePhase(cfg, DecodeOne(cfg, w, ids[0]), ids[1..])
  {
    hide DecodeOne;
  }

  // ---- prefills

  lemma PrefillsStop(cfg: Config, w: Work, i: nat)
    requires cfg.bs > 0 && i <= |w.st.running|
    ensures i == |w.st.running| || w.budget <= 0 ==> PrefillPhase(cfg, w, i) == w
    ensures i < |w.st.running| && w.budget > 0 ==>
      && PrefillOne(cfg, w, w.st.running[i]).st == w.st
      && PrefillPhase(cfg, w, i) == PrefillPhase(cfg, PrefillOne(cfg, w, w.st.running[i]), i + 1)
    ensures i < |w.st.running| ==>
      PrefillOne(cfg, w, w.st.running[i]) ==
        if w.st.running[i].PrefillDone() then w
        else match MakeChunk(cfg, w.st.running[i], w.budget, Available(cfg, w))
             case None => w
             case Some(c) => TakeChunk(cfg, w, w.st.running[i], c)
  {
    hide MakeChunk, Need;
  }

  // ---- forward progress and the whole call

  lemma BreakStallIs(cfg: Config, w: Work)
    requires cfg.bs > 0
    ensures Empty(w) && w.st.running == [] && w.st.waiting != [] && cfg.caching ==>
      var short := CeilDiv(w.st.waiting[0].computed + 1, cfg.bs) - |w.st.pool.free|;
      BreakStall(cfg, w) == w.(st := Reclaim(w.st, if short > 1 then short else 1))
    ensures !(Empty(w) && w.st.running == [] && w.st.waiting != [] && cfg.caching) ==> BreakStall(cfg, w) == w
  {
    hide Reclaim;
  }

  lemma ForceHeadIs(cfg: Config, w: Work)
    requires cfg.bs > 0
    ensures !(Empty(w) && w.st.running != [] && w.st.running[0].PrefillDone() && w.st.running[0].kv.Some?) ==>
      ForceHead(cfg, w) == w
    ensures Empty(w) && w.st.running != [] && w.st.running[0].PrefillDone() && w.st.running[0].kv.Some? ==>
      var head := w.st.running[0];
      var needed := Need(cfg, head, head.computed + 1);
      var w' := if needed > |w.st.pool.free| then w.(st := MakeRoom(cfg, w.st, needed, {head.id})) else w;
      ForceHead(cfg, w) ==
        if needed <= |w'.st.pool.free|
        then w'.(scheduled := w'.scheduled + {head.id}, decodes := w'.decodes + [head.id])
        else w'
  {
    hide MakeRoom, Need;
  }

  lemma CleanIs(cfg: Config, e: State)
    requires cfg.bs > 0
    ensures Clean(cfg, e) <==>
      !UndoesHit(cfg, PrefillPhase(cfg, DecodePhase(cfg, Work(e, cfg.budget, 0, {}, [], []), Ids(e.running)), 0))
  {
    hide UndoesHit, PrefillPhase, DecodePhase;
  }

  /** When the call undoes no cache hit, the plan is sound after every phase. */
  lemma PhasesKeep(cfg: Config, m: Model, e: State)
    requires cfg.bs > 0 && Clean(cfg, e) && Safe(cfg, m, e) && Settled(e)
    ensures var w0 := Work(e, cfg.budget, 0, {}, [], []);
      var w1 := DecodePhase(cfg, w0, Ids(e.running));
      var w2 := PrefillPhase(cfg, w1, 0);
      var w3 := AdmitPhase(cfg, w2);
      && Planning(cfg, m, w0) && Planning(cfg, m, w1) && Planning(cfg, m, w2) && Planning(cfg, m, w3)
      && Planning(cfg, m, BreakStall(cfg, w3))
      && Schedule(cfg, e) == ForceHead(cfg, BreakStall(cfg, w3))
  {
    hide *;
    CleanIs(cfg, e);
    var w0 := Work(e, cfg.budget, 0, {}, [], []);
    StartPlanning(cfg, m, e);
    IdsDistinct(e);
    DecodePhaseKeeps(cfg, m, w0, Ids(e.running));
    DecodePhaseSlices(cfg, w0, Ids(e.running));
    var w1 := DecodePhase(cfg, w0, Ids(e.running));
    PlanningDistinct(cfg, m, w1);
    Unsliced(w1);
    PrefillPhaseKeeps(cfg, m, w1, 0);
    var w2 := PrefillPhase(cfg, w1, 0);
    AdmitPhaseKeeps(cfg, m, w2);
    BreakStallKeeps(cfg, m, AdmitPhase(cfg, w2));
    ScheduleUnfolds(cfg, e);
  }
}
