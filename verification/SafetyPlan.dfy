/** A step plan never over-commits: every phase of schedule() keeps the invariant and an affordable plan. */
module SafetyPlan {
  import opened Numbers
  import opened Decoding
  import opened Options
  import opened Requests
  import opened Scheduling
  import opened Safety
  import opened SafetyMoves

  // ---- looking requests up by id

  function Get(q: seq<Req>, id: nat): (r: Option<Req>)
    ensures r.Some? ==> r.value in q && r.value.id == id
  {
    var i := Find(q, id);
    if i < |q| then Some(q[i]) else None
  }

  lemma GetMember(q: seq<Req>, r: Req)
    requires Distinct(q) && r in q
    ensures Get(q, r.id) == Some(r)
  {
  }

  lemma {:induction false} FindConcat(a: seq<Req>, b: seq<Req>, id: nat)
    ensures Find(a + b, id) == if Find(a, id) < |a| then Find(a, id) else |a| + Find(b, id)
    decreases |a|
  {
    if a == [] {
      assert a + b == b;
    } else {
      assert (a + b)[1..] == a[1..] + b;
      FindConcat(a[1..], b, id);
    }
  }

  lemma GetWithout(q: seq<Req>, i: nat, id: nat)
    requires i < |q| && q[i].id != id
    ensures Get(Without(q, i), id) == Get(q, id)
  {
    assert q == q[..i] + ([q[i]] + q[i + 1..]);
    FindConcat(q[..i], [q[i]] + q[i + 1..], id);
    FindConcat([q[i]], q[i + 1..], id);
    FindConcat(q[..i], q[i + 1..], id);
    assert Find([q[i]], id) == 1;
  }

  lemma GetAppend(q: seq<Req>, r: Req, id: nat)
    requires Get(q, id).Some?
    ensures Get(q + [r], id) == Get(q, id)
  {
    FindConcat(q, [r], id);
  }

  lemma RunningDistinct(e: State)
    requires IdsOk(e)
    ensures Distinct(e.running) && Distinct(e.waiting)
  {
    forall i, j | 0 <= i < j < |e.running|
      ensures e.running[i].id != e.running[j].id
    {
      assert Queued(e)[i] == e.running[i] && Queued(e)[j] == e.running[j];
    }
    forall i, j | 0 <= i < j < |e.waiting|
      ensures e.waiting[i].id != e.waiting[j].id
    {
      var n := |e.running|;
      assert Queued(e)[n + i] == e.waiting[i] && Queued(e)[n + j] == e.waiting[j];
    }
  }

  // ---- what a plan costs

  function CostOf(cfg: Config, r: Option<Req>, total: nat): nat
    requires cfg.bs > 0
  {
    if r.Some? then Need(cfg, r.value, total) else 0
  }

  function DecodeCost(cfg: Config, q: seq<Req>, ids: seq<nat>): nat
    requires cfg.bs > 0
  {
    if ids == [] then 0
    else
      var r := Get(q, ids[0]);
      (if r.Some? then Need(cfg, r.value, r.value.computed + 1) else 0) + DecodeCost(cfg, q, ids[1..])
  }

  function ChunkCost(cfg: Config, q: seq<Req>, cs: seq<Slice>): nat
    requires cfg.bs > 0
  {
    if cs == [] then 0
    else CostOf(cfg, Get(q, cs[0].id), cs[0].start + cs[0].count) + ChunkCost(cfg, q, cs[1..])
  }

  function ChunkTokens(cs: seq<Slice>): nat {
    if cs == [] then 0 else cs[0].count + ChunkTokens(cs[1..])
  }

  lemma {:induction false} DecodeCostAppend(cfg: Config, q: seq<Req>, ids: seq<nat>, id: nat)
    requires cfg.bs > 0 && Get(q, id).Some?
    ensures DecodeCost(cfg, q, ids + [id]) ==
      DecodeCost(cfg, q, ids) + Need(cfg, Get(q, id).value, Get(q, id).value.computed + 1)
    decreases |ids|
  {
    hide Get, Need;
    if ids == [] {
      assert [id][1..] == [];
      assert ids + [id] == [id];
      assert DecodeCost(cfg, q, [id][1..]) == 0;
    } else {
      assert (ids + [id])[1..] == ids[1..] + [id];
      DecodeCostAppend(cfg, q, ids[1..], id);
    }
  }

  lemma {:induction false} ChunkCostAppend(cfg: Config, q: seq<Req>, cs: seq<Slice>, c: Slice)
    requires cfg.bs > 0
    ensures ChunkCost(cfg, q, cs + [c]) == ChunkCost(cfg, q, cs) + CostOf(cfg, Get(q, c.id), c.start + c.count)
    ensures ChunkTokens(cs + [c]) == ChunkTokens(cs) + c.count
    decreases |cs|
  {
    hide Get, CostOf;
    if cs == [] {
      assert [c][1..] == [];
      assert cs + [c] == [c];
      assert ChunkCost(cfg, q, [c][1..]) == 0;
    } else {
      assert (cs + [c])[1..] == cs[1..] + [c];
      ChunkCostAppend(cfg, q, cs[1..], c);
    }
  }

  lemma {:induction false} DecodeCostSame(cfg: Config, q: seq<Req>, q': seq<Req>, ids: seq<nat>)
    requires cfg.bs > 0 && forall id :: id in ids ==> Get(q', id) == Get(q, id)
    ensures DecodeCost(cfg, q', ids) == DecodeCost(cfg, q, ids)
    decreases |ids|
  {
    hide Get, Need;
    if ids != [] {
      DecodeCostSame(cfg, q, q', ids[1..]);
    }
  }

  lemma {:induction false} ChunkCostSame(cfg: Config, q: seq<Req>, q': seq<Req>, cs: seq<Slice>)
    requires cfg.bs > 0 && forall c :: c in cs ==> Get(q', c.id) == Get(q, c.id)
    ensures ChunkCost(cfg, q', cs) == ChunkCost(cfg, q, cs)
    decreases |cs|
  {
    hide Get, CostOf;
    if cs != [] {
      ChunkCostSame(cfg, q, q', cs[1..]);
    }
  }

  // ---- an affordable plan

  ghost predicate ChunkReady(r: Option<Req>, c: Slice) {
    && r.Some? && r.value.status == Prefill
    && c.start == r.value.computed && c.count > 0
    && c.start + c.count <= r.value.PrefillTarget()
    && (c.final <==> c.start + c.count == r.value.PrefillTarget())
  }

  ghost predicate ItemsOk(q: seq<Req>, decodes: seq<nat>, chunks: seq<Slice>) {
    && (forall id :: id in decodes ==> Get(q, id).Some? && Get(q, id).value.status == Running)
    && (forall c :: c in chunks ==> ChunkReady(Get(q, c.id), c))
    && (forall i, j :: 0 <= i < j < |decodes| ==> decodes[i] != decodes[j])
    && (forall i, j :: 0 <= i < j < |chunks| ==> chunks[i].id != chunks[j].id)
  }

  ghost predicate Sliced(chunks: seq<Slice>, id: nat) {
    exists c :: c in chunks && c.id == id
  }

  ghost predicate ScheduledOk(w: Work) {
    forall id :: id in w.scheduled <==> id in w.decodes || Sliced(w.chunks, id)
  }

  ghost predicate Affordable(cfg: Config, w: Work)
    requires cfg.bs > 0
  {
    && w.reserved == DecodeCost(cfg, w.st.running, w.decodes) + ChunkCost(cfg, w.st.running, w.chunks)
    && (w.reserved == 0 || w.reserved <= FreeBlocks(cfg, w.st))
  }

  ghost predicate WithinBudget(cfg: Config, w: Work) {
    w.budget >= 0 && w.budget + |w.decodes| + ChunkTokens(w.chunks) == cfg.budget
  }

  /** What schedule() maintains about its plan so far. */
  ghost predicate PlanOk(cfg: Config, w: Work)
    requires cfg.bs > 0
  {
    && ItemsOk(w.st.running, w.decodes, w.chunks)
    && ScheduledOk(w)
    && Affordable(cfg, w)
    && WithinBudget(cfg, w)
  }

  lemma SlicedAppend(cs: seq<Slice>, c: Slice, id: nat)
    ensures Sliced(cs + [c], id) <==> id == c.id || Sliced(cs, id)
  {
    if Sliced(cs, id) {
      var x :| x in cs && x.id == id;
      assert x in cs + [c];
    }
    assert c in cs + [c];
  }

  /** The plan survives any change that keeps the scheduled requests and frees no less. */
  lemma PlanKept(cfg: Config, w: Work, e: State)
    requires cfg.bs > 0 && PlanOk(cfg, w)
    requires forall id :: id in w.scheduled ==> Get(e.running, id) == Get(w.st.running, id)
    requires |e.pool.free| >= |w.st.pool.free|
    ensures PlanOk(cfg, w.(st := e))
  {
    hide Get, DecodeCost, ChunkCost, ChunkTokens, ChunkReady;
    var q, q' := w.st.running, e.running;
    forall c | c in w.chunks
      ensures Get(q', c.id) == Get(q, c.id)
    {
      assert Sliced(w.chunks, c.id);
    }
    DecodeCostSame(cfg, q, q', w.decodes);
    ChunkCostSame(cfg, q, q', w.chunks);
  }

  lemma TakeDecodePlan(cfg: Config, w: Work, id: nat, needed: nat)
    requires cfg.bs > 0 && PlanOk(cfg, w) && w.budget > 0
    requires id !in w.scheduled && Get(w.st.running, id).Some? && Get(w.st.running, id).value.status == Running
    requires needed == Need(cfg, Get(w.st.running, id).value, Get(w.st.running, id).value.computed + 1)
    requires needed <= Available(cfg, w)
    ensures PlanOk(cfg, TakeDecode(w, id, needed))
  {
    hide Get, Need, DecodeCost, ChunkCost, ChunkTokens, ChunkReady;
    DecodeCostAppend(cfg, w.st.running, w.decodes, id);
  }

  lemma TakeChunkPlan(cfg: Config, w: Work, r: Req, c: Slice)
    requires cfg.bs > 0 && PlanOk(cfg, w) && c.count <= w.budget
    requires c.id !in w.scheduled && Get(w.st.running, c.id) == Some(r) && ChunkReady(Some(r), c)
    requires Need(cfg, r, c.start + c.count) == 0 || Need(cfg, r, c.start + c.count) <= Available(cfg, w)
    ensures PlanOk(cfg, TakeChunk(cfg, w, r, c))
  {
    hide Get, Need, DecodeCost, ChunkCost, ChunkTokens, ChunkReady;
    ChunkCostAppend(cfg, w.st.running, w.chunks, c);
    var w' := TakeChunk(cfg, w, r, c);
    forall id
      ensures Sliced(w'.chunks, id) <==> id == c.id || Sliced(w.chunks, id)
    {
      SlicedAppend(w.chunks, c, id);
    }
    forall i | 0 <= i < |w.chunks|
      ensures w.chunks[i].id != c.id
    {
      assert w.chunks[i] in w.chunks;
      assert Sliced(w.chunks, w.chunks[i].id);
    }
  }

  // ---- making room

  /** Making room never touches a protected request and never shrinks the free list. */
  ghost predicate Roomier(e: State, e': State, protected: set<nat>) {
    && |e'.pool.free| >= |e.pool.free|
    && (forall id :: id in protected ==> Get(e'.running, id) == Get(e.running, id))
    && |e'.running| <= |e.running|
  }

  lemma {:induction false} PreemptUntilKeeps(cfg: Config, m: Model, e: State, needed: nat, protected: set<nat>)
    requires cfg.bs > 0 && Safe(cfg, m, e) && Settled(e)
    ensures var e' := PreemptUntil(cfg, e, needed, protected);
      Safe(cfg, m, e') && Settled(e') && Roomier(e, e', protected)
    decreases |e.running|
  {
    hide Safe, Get;
    if FreeBlocks(cfg, e) < needed {
      match NewestUnprotected(e.running, protected)
      case None =>
      case Some(i) =>
        var e1 := Preempt(e, i);
        PreemptSafe(cfg, m, e, i);
        PreemptMembers(e, i);
        forall id | id in protected
          ensures Get(e1.running, id) == Get(e.running, id)
        {
          GetWithout(e.running, i, id);
        }
        hide Preempt;
        PreemptUntilKeeps(cfg, m, e1, needed, protected);
    }
  }

  lemma MakeRoomKeeps(cfg: Config, m: Model, e: State, needed: nat, protected: set<nat>)
    requires cfg.bs > 0 && Safe(cfg, m, e) && Settled(e)
    ensures var e' := MakeRoom(cfg, e, needed, protected);
      Safe(cfg, m, e') && Settled(e') && Roomier(e, e', protected)
  {
    hide Safe, Reclaim, PreemptUntil, Get;
    var e1 := ReclaimFor(cfg, e, needed);
    if cfg.caching && needed - FreeBlocks(cfg, e) > 0 {
      ReclaimSafe(cfg, m, e, needed - FreeBlocks(cfg, e));
    }
    assert Safe(cfg, m, e1) && Settled(e1) && Roomier(e, e1, protected);
    PreemptUntilKeeps(cfg, m, e1, needed, protected);
  }

  // ---- 1. decodes

  /** The state inside schedule(): invariant, nothing finished, an affordable plan. */
  ghost predicate Planning(cfg: Config, m: Model, w: Work)
    requires cfg.bs > 0
  {
    Safe(cfg, m, w.st) && Settled(w.st) && PlanOk(cfg, w)
  }

  /** A running request whose prefill is done is decoding. */
  lemma DoneIsDecoding(cfg: Config, m: Model, e: State, r: Req)
    requires Safe(cfg, m, e) && Settled(e) && r in e.running
    ensures RunningOk(cfg, r)
    ensures r.PrefillDone() <==> r.status == Running
    ensures !r.PrefillDone() <==> r.status == Prefill
  {
    hide MemoryOk, OwnershipOk, ViewsOk, NodesOk, OutputsOk, IdsOk, PagedOk;
    assert RunningOk(cfg, r);
  }

  lemma DecodeOneKeeps(cfg: Config, m: Model, w: Work, id: nat)
    requires cfg.bs > 0 && Planning(cfg, m, w) && w.budget > 0 && id !in w.scheduled
    ensures var w' := DecodeOne(cfg, w, id);
      Planning(cfg, m, w') && w'.scheduled <= w.scheduled + {id} && |w'.st.running| <= |w.st.running|
  {
    hide Safe, Settled, PlanOk, Need, MakeRoom, Get;
    assert Safe(cfg, m, w.st) && Settled(w.st) && PlanOk(cfg, w);
    var r := Get(w.st.running, id);
    GetIs(w.st.running, id);
    if r.Some? && r.value.PrefillDone() {
      DoneIsDecoding(cfg, m, w.st, r.value);
      var needed := Need(cfg, r.value, r.value.computed + 1);
      if needed <= Available(cfg, w) {
        TakeDecodePlan(cfg, w, id, needed);
      } else {
        MakeRoomKeeps(cfg, m, w.st, needed + w.reserved, w.scheduled + {id});
        var w1 := w.(st := MakeRoom(cfg, w.st, needed + w.reserved, w.scheduled + {id}));
        PlanKept(cfg, w, w1.st);
        if needed <= Available(cfg, w1) {
          TakeDecodePlan(cfg, w1, id, needed);
        }
      }
    }
  }

  lemma GetIs(q: seq<Req>, id: nat)
    ensures Get(q, id) == if Find(q, id) < |q| then Some(q[Find(q, id)]) else None
  {
  }

  lemma {:induction false} DecodePhaseKeeps(cfg: Config, m: Model, w: Work, ids: seq<nat>)
    requires cfg.bs > 0 && Planning(cfg, m, w)
    requires forall i :: 0 <= i < |ids| ==> ids[i] !in w.scheduled
    requires forall i, j :: 0 <= i < j < |ids| ==> ids[i] != ids[j]
    ensures var w' := DecodePhase(cfg, w, ids);
      Planning(cfg, m, w') && |w'.st.running| <= |w.st.running|
    decreases |ids|
  {
    hide Planning, DecodeOne;
    if ids != [] && w.budget > 0 {
      DecodeOneKeeps(cfg, m, w, ids[0]);
      DecodePhaseKeeps(cfg, m, DecodeOne(cfg, w, ids[0]), ids[1..]);
    }
  }

  // ---- 2. in-flight prefills

  /** A slice fits the budget, the prompt and the memory offered. */
  lemma ChunkFits(cfg: Config, r: Req, budget: int, available: int)
    requires cfg.bs > 0 && MakeChunk(cfg, r, budget, available).Some?
    ensures var c := MakeChunk(cfg, r, budget, available).value;
      && c.id == r.id && c.start == r.computed && 0 < c.count <= budget
      && c.start + c.count <= r.PrefillTarget()
      && (c.final <==> c.start + c.count == r.PrefillTarget())
      && (Need(cfg, r, c.start + c.count) == 0 || Need(cfg, r, c.start + c.count) <= available)
  {
    var c := MakeChunk(cfg, r, budget, available).value;
    var pages := |r.Table()| + if available > 0 then available else 0;
    if Need(cfg, r, c.start + c.count) > available {
      CeilDivFits(c.start + c.count, cfg.bs, pages);
    }
  }

  /** The request has room for n more tokens, or the blocks for them are offered. */
  predicate RoomFor(cfg: Config, r: Req, n: nat, available: int)
    requires cfg.bs > 0
  {
    Need(cfg, r, r.computed + n) == 0 || Need(cfg, r, r.computed + n) <= available
  }

  /** A slice of n tokens is allowed: within the prompt, the budget and the memory; all or nothing unless chunked. */
  predicate Allowable(cfg: Config, r: Req, n: int, budget: int, available: int)
    requires cfg.bs > 0
  {
    && 0 < n <= r.RemainingPrefill() && n <= budget && (cfg.chunked || r.RemainingPrefill() <= budget)
    && RoomFor(cfg, r, n, available)
  }

  lemma RoomForIs(cfg: Config, r: Req, n: nat, available: int)
    requires cfg.bs > 0
    ensures RoomFor(cfg, r, n, available) <==>
      r.computed + n <= (|r.Table()| + if available > 0 then available else 0) * cfg.bs
  {
    CeilDivFits(r.computed + n, cfg.bs, |r.Table()|);
    CeilDivFits(r.computed + n, cfg.bs, |r.Table()| + if available > 0 then available else 0);
  }

  /** The slice is the largest allowed one; there is none if and only if no number of tokens is allowed. */
  lemma LargestSlice(cfg: Config, r: Req, budget: int, available: int)
    requires cfg.bs > 0
    ensures match MakeChunk(cfg, r, budget, available)
      case None => forall n :: !Allowable(cfg, r, n, budget, available)
      case Some(c) =>
        && c.id == r.id && c.start == r.computed && (c.final <==> c.count == r.RemainingPrefill())
        && Allowable(cfg, r, c.count, budget, available)
        && forall n :: Allowable(cfg, r, n, budget, available) ==> n <= c.count
  {
    var want := if r.RemainingPrefill() < budget then r.RemainingPrefill() else budget;
    if want > 0 {
      RoomForIs(cfg, r, want, available);
    }
    var c := MakeChunk(cfg, r, budget, available);
    if c.Some? {
      RoomForIs(cfg, r, c.value.count, available);
    }
    hide Need;
    forall n | Allowable(cfg, r, n, budget, available)
      ensures c.Some? && n <= c.value.count
    {
      RoomForIs(cfg, r, n, available);
    }
  }

  lemma PrefillOneKeeps(cfg: Config, m: Model, w: Work, i: nat)
    requires cfg.bs > 0 && Planning(cfg, m, w) && i < |w.st.running| && w.budget > 0
    requires Get(w.st.running, w.st.running[i].id) == Some(w.st.running[i])
    requires !Sliced(w.chunks, w.st.running[i].id)
    ensures var r, w' := w.st.running[i], PrefillOne(cfg, w, w.st.running[i]);
      && Planning(cfg, m, w') && w'.st == w.st && w'.decodes == w.decodes
      && (forall id :: Sliced(w'.chunks, id) ==> id == r.id || Sliced(w.chunks, id))
  {
    hide Safe, Need, MakeChunk, Get;
    var r := w.st.running[i];
    DoneIsDecoding(cfg, m, w.st, r);
    var c := MakeChunk(cfg, r, w.budget, Available(cfg, w));
    if !r.PrefillDone() && c.Some? {
      ChunkFits(cfg, r, w.budget, Available(cfg, w));
      assert r.id !in w.scheduled;
      TakeChunkPlan(cfg, w, r, c.value);
      forall id
        ensures Sliced(w.chunks + [c.value], id) <==> id == c.value.id || Sliced(w.chunks, id)
      {
        SlicedAppend(w.chunks, c.value, id);
      }
    }
    hide PlanOk, Sliced;
  }

  lemma {:induction false} PrefillPhaseKeeps(cfg: Config, m: Model, w: Work, i: nat)
    requires cfg.bs > 0 && Planning(cfg, m, w) && i <= |w.st.running| && Distinct(w.st.running)
    requires forall j :: i <= j < |w.st.running| ==> !Sliced(w.chunks, w.st.running[j].id)
    ensures var w' := PrefillPhase(cfg, w, i);
      Planning(cfg, m, w') && w'.st == w.st
    decreases |w.st.running| - i
  {
    hide Planning, PrefillOne, Sliced, Get;
    if i < |w.st.running| && w.budget > 0 {
      GetMember(w.st.running, w.st.running[i]);
      PrefillOneKeeps(cfg, m, w, i);
      PrefillPhaseKeeps(cfg, m, PrefillOne(cfg, w, w.st.running[i]), i + 1);
    }
  }
}
