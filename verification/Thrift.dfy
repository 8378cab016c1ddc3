/**
 A call of schedule() does all the work it can and takes back no more memory than it
 needs: what is left out of a plan could not have been in it, and what was evicted or
 preempted was short.
 */
module Thrift {
  import opened Numbers
  import opened Blocks
  import opened Decoding
  import opened Options
  import opened Radix
  import opened RadixLaws
  import opened Requests
  import opened Scheduling
  import opened Safety
  import opened SafetyMoves
  import opened SafetyPlan
  import opened SafetySchedule
  import opened Conservation
  import opened Fairness
  import opened Stalls
  import opened Advancing
  import opened ScheduleFacts

  // ---- making room

  /** How many cached blocks are taken back: those missing, as far as nobody uses them. */
  ghost function TakenBack(cfg: Config, e: State, needed: nat): nat {
    var short := needed - FreeBlocks(cfg, e);
    if cfg.caching && short > 0 then RadixLaws.Min(short, |Unpinned(CacheOf(e))|) else 0
  }

  /** The last preemption that led here found too few blocks free. */
  ghost predicate LastWasNeeded(cfg: Config, e1: State, needed: nat) {
    exists e0: State, i: nat :: i < |e0.running| && e1 == Preempt(e0, i) && FreeBlocks(cfg, e0) < needed
  }

  lemma {:induction false} PreemptsAsNeeded(cfg: Config, e: State, needed: nat, protected: set<nat>)
    ensures var e1 := PreemptUntil(cfg, e, needed, protected);
      && (e1 == e || LastWasNeeded(cfg, e1, needed)) && e1.tree == e.tree
      && (FreeBlocks(cfg, e) >= needed ==> e1 == e)
      && (FreeBlocks(cfg, e1) < needed ==> forall r :: r in e1.running ==> r.id in protected)
      && (forall r :: r in e1.running ==> r in e.running)
    decreases |e.running|
  {
    if FreeBlocks(cfg, e) < needed {
      match NewestUnprotected(e.running, protected)
      case None =>
      case Some(i) =>
        var e0 := Preempt(e, i);
        PreemptsAsNeeded(cfg, e0, needed, protected);
        assert forall r :: r in e0.running ==> r in e.running;
        if PreemptUntil(cfg, e0, needed, protected) == e0 {
          assert LastWasNeeded(cfg, e0, needed);
        }
        hide Preempt, PreemptUntil;
    }
  }

  /**
   Room is made only when blocks are missing, in the order cached blocks, running
   requests, and stops as soon as enough are free. When it falls short, nothing that
   may be taken is left.
   */
  lemma RoomIsThrifty(cfg: Config, m: Model, e: State, needed: nat, protected: set<nat>)
    requires cfg.bs > 0 && Safe(cfg, m, e) && Settled(e)
    ensures var e1 := MakeRoom(cfg, e, needed, protected);
      && (FreeBlocks(cfg, e) >= needed ==> e1 == e)
      && |e1.tree.nodes| + TakenBack(cfg, e, needed) == |e.tree.nodes|
      && (e1.running != e.running ==>
            && cfg.preemption && LastWasNeeded(cfg, e1, needed)
            && FreeBlocks(cfg, e) + TakenBack(cfg, e, needed) < needed)
      && (FreeBlocks(cfg, e1) < needed ==>
            && (cfg.preemption ==> forall r :: r in e1.running ==> r.id in protected)
            && (cfg.caching ==> TakenBack(cfg, e, needed) == |Unpinned(CacheOf(e))|))
      && (forall r :: r in e1.running ==> r in e.running)
  {
    ReclaimsCount(cfg, m, e, needed);
    PreemptsAsNeeded(cfg, ReclaimFor(cfg, e, needed), needed, protected);
    var e1, mid := MakeRoom(cfg, e, needed, protected), ReclaimFor(cfg, e, needed);
    if FreeBlocks(cfg, e1) < needed {
      PreemptUntilKeeps(cfg, m, mid, needed, protected);
    }
    hide PreemptUntil, ReclaimFor, Safe, Settled, Unpinned, LastWasNeeded;
  }

  lemma NodesLeft(cfg: Config, m: Model, e: State, k: nat)
    requires cfg.bs > 0 && Safe(cfg, m, e)
    ensures |Reclaim(e, k).tree.nodes| + RadixLaws.Min(k, |Unpinned(CacheOf(e))|) == |e.tree.nodes|
  {
    ReclaimSafe(cfg, m, e, k);
    VictimCount(cfg, m, e, k);
    TreeSize(cfg, m, e);
    TreeSize(cfg, m, Reclaim(e, k));
    EvictCounts(CacheOf(e), k, Tables(Queued(e)));
    hide Safe, Victims, Unpinned, Evict;
  }

  lemma TreeSize(cfg: Config, m: Model, e: State)
    requires Safe(cfg, m, e)
    ensures e.tree.cached == |e.tree.nodes| && TreeOk(e.tree) && CacheCounts(CacheOf(e), Tables(Queued(e)))
  {
    SafeMemoryOk(cfg, m, e);
    hide Safe, Counts, Tables;
  }

  lemma ReclaimsCount(cfg: Config, m: Model, e: State, needed: nat)
    requires cfg.bs > 0 && Safe(cfg, m, e)
    ensures var e1 := ReclaimFor(cfg, e, needed);
      && Safe(cfg, m, e1) && e1.running == e.running
      && (FreeBlocks(cfg, e) >= needed ==> e1 == e)
      && |e1.pool.free| == |e.pool.free| + TakenBack(cfg, e, needed)
      && |e1.tree.nodes| + TakenBack(cfg, e, needed) == |e.tree.nodes|
      && (cfg.caching && FreeBlocks(cfg, e1) < needed ==>
            TakenBack(cfg, e, needed) == |Unpinned(CacheOf(e))| && Unpinned(CacheOf(e1)) == {})
  {
    hide *;
    ReclaimForIs(cfg, e, needed);
    var short := needed - FreeBlocks(cfg, e);
    FreeIs(cfg, e);
    if cfg.caching && short > 0 {
      ReclaimSafe(cfg, m, e, short);
      ReclaimTrades(cfg, m, e, short);
      NodesLeft(cfg, m, e, short);
      FreeIs(cfg, Reclaim(e, short));
      Emptied(Unpinned(CacheOf(Reclaim(e, short))));
    }
  }

  lemma ReclaimForIs(cfg: Config, e: State, needed: nat)
    ensures var short := needed - FreeBlocks(cfg, e);
      if cfg.caching && short > 0
      then ReclaimFor(cfg, e, needed) == Reclaim(e, short)
           && TakenBack(cfg, e, needed) == RadixLaws.Min(short, |Unpinned(CacheOf(e))|)
           && TakenBack(cfg, e, needed) == if short < |Unpinned(CacheOf(e))| then short else |Unpinned(CacheOf(e))|
      else ReclaimFor(cfg, e, needed) == e && TakenBack(cfg, e, needed) == 0
  {
    hide Reclaim, Unpinned;
  }

  lemma Emptied(ps: set<Path>)
    ensures |ps| == 0 <==> ps == {}
  {
  }

  // ---- decodes

  /** The request's next token needs a block and none is left to promise. */
  predicate Short(cfg: Config, w: Work, r: Req)
    requires cfg.bs > 0
  {
    Need(cfg, r, r.computed + 1) > Available(cfg, w)
  }

  /** Eviction has nothing to give. */
  ghost predicate Dry(cfg: Config, e: State) { cfg.caching ==> Unpinned(CacheOf(e)) == {} }

  /** One turn: the request is in the plan, or short, and then nobody else is left to take from. */
  ghost predicate Turned(cfg: Config, w1: Work, id: nat)
    requires cfg.bs > 0
  {
    forall x :: x in w1.st.running && x.id == id && x.PrefillDone() && id !in w1.scheduled ==>
      && Short(cfg, w1, x)
      && (cfg.preemption ==> forall r :: r in w1.st.running ==> r.id in w1.scheduled + {id})
      && (!cfg.preemption ==> Dry(cfg, w1.st))
  }

  lemma DecodeOneTurns(cfg: Config, m: Model, w: Work, id: nat)
    requires cfg.bs > 0 && Planning(cfg, m, w) && w.budget > 0 && id !in w.scheduled
    ensures var w1 := DecodeOne(cfg, w, id);
      && (forall r :: r in w1.st.running ==> r in w.st.running) && w.scheduled <= w1.scheduled && Turned(cfg, w1, id)
  {
    hide Planning, Dry, Need, MakeRoom, Safe, Settled, PlanOk, Get, Find, Short, Turned;
    PlanningIs(cfg, m, w);
    DecodeTurn(cfg, m, w, id);
    var w1, i := DecodeOne(cfg, w, id), Find(w.st.running, id);
    hide DecodeOne;
    if i == |w.st.running| || !w.st.running[i].PrefillDone() {
      NotItsTurn(cfg, m, w, id);
    } else {
      var r := w.st.running[i];
      var needed, protected := Need(cfg, r, r.computed + 1), w.scheduled + {id};
      RoomIsThrifty(cfg, m, w.st, needed + w.reserved, protected);
      MakeRoomKeeps(cfg, m, w.st, needed + w.reserved, protected);
      if id in w1.scheduled {
        PlannedTurns(cfg, w1, id);
      } else {
        assert w1 == w.(st := MakeRoom(cfg, w.st, needed + w.reserved, protected)) && needed > Available(cfg, w1);
        RoomLeavesDry(cfg, m, w.st, needed + w.reserved, protected);
        ShortTurns(cfg, m, w1, id, r);
      }
    }
  }

  lemma NotItsTurn(cfg: Config, m: Model, w: Work, id: nat)
    requires cfg.bs > 0 && Safe(cfg, m, w.st)
    requires Find(w.st.running, id) == |w.st.running| || !w.st.running[Find(w.st.running, id)].PrefillDone()
    ensures Turned(cfg, w, id)
  {
    SafeDistinct(cfg, m, w.st);
    hide Safe, Short, Dry;
    forall x | x in w.st.running && x.id == id
      ensures !x.PrefillDone()
    {
      var k :| 0 <= k < |w.st.running| && w.st.running[k] == x;
      assert k == Find(w.st.running, id);
    }
  }

  lemma PlannedTurns(cfg: Config, w1: Work, id: nat)
    requires cfg.bs > 0 && id in w1.scheduled
    ensures Turned(cfg, w1, id)
  {
    hide Short, Dry;
  }

  lemma ShortTurns(cfg: Config, m: Model, w1: Work, id: nat, r: Req)
    requires cfg.bs > 0 && Safe(cfg, m, w1.st) && Get(w1.st.running, id) == Some(r)
    requires Need(cfg, r, r.computed + 1) > Available(cfg, w1)
    requires cfg.preemption ==> forall x :: x in w1.st.running ==> x.id in w1.scheduled + {id}
    requires !cfg.preemption ==> Dry(cfg, w1.st)
    ensures Turned(cfg, w1, id)
  {
    SafeDistinct(cfg, m, w1.st);
    hide Safe, Need, Dry, Get;
    forall x | x in w1.st.running && x.id == id
      ensures Short(cfg, w1, x)
    {
      GetMember(w1.st.running, x);
    }
  }

  lemma RoomLeavesDry(cfg: Config, m: Model, e: State, needed: nat, protected: set<nat>)
    requires cfg.bs > 0 && Safe(cfg, m, e)
    ensures var e1 := MakeRoom(cfg, e, needed, protected);
      !cfg.preemption && FreeBlocks(cfg, e1) < needed ==> Dry(cfg, e1)
  {
    ReclaimsCount(cfg, m, e, needed);
    hide ReclaimFor, Safe, PreemptUntil, Unpinned;
  }

  /** Who is not running is passed over. */
  lemma {:induction false} GoneSkipped(cfg: Config, w: Work, ids: seq<nat>)
    requires cfg.bs > 0 && forall r :: r in w.st.running ==> r.id !in ids
    ensures DecodePhase(cfg, w, ids) == w
    decreases |ids|
  {
    if ids != [] && w.budget > 0 {
      forall j | 0 <= j < |w.st.running|
        ensures w.st.running[j].id != ids[0]
      {
        assert w.st.running[j] in w.st.running;
      }
      assert DecodeOne(cfg, w, ids[0]) == w;
      hide DecodeOne, Find;
      GoneSkipped(cfg, w, ids[1..]);
    }
  }

  /** Without preemption, and with nothing to evict, nobody is given more. */
  lemma {:induction false} DryDecodes(cfg: Config, m: Model, w: Work, ids: seq<nat>)
    requires cfg.bs > 0 && Safe(cfg, m, w.st) && !cfg.preemption && Dry(cfg, w.st)
    ensures var w' := DecodePhase(cfg, w, ids);
      w'.st == w.st && w'.reserved >= w.reserved && w'.budget <= w.budget && w.scheduled <= w'.scheduled
    decreases |ids|
  {
    hide Safe, Need, Find, MakeRoom, Dry;
    if ids != [] && w.budget > 0 {
      var i, w1 := Find(w.st.running, ids[0]), DecodeOne(cfg, w, ids[0]);
      if i < |w.st.running| {
        var r := w.st.running[i];
        DryRoom(cfg, m, w.st, Need(cfg, r, r.computed + 1) + w.reserved, w.scheduled + {ids[0]});
      }
      assert w1.st == w.st && w1.reserved >= w.reserved && w1.budget <= w.budget && w.scheduled <= w1.scheduled;
      hide DecodeOne;
      DryDecodes(cfg, m, w1, ids[1..]);
    }
  }

  lemma DryRoom(cfg: Config, m: Model, e: State, needed: nat, protected: set<nat>)
    requires cfg.bs > 0 && Safe(cfg, m, e) && !cfg.preemption && Dry(cfg, e)
    ensures MakeRoom(cfg, e, needed, protected) == e
  {
    if cfg.caching {
      NothingReclaimed(cfg, m, e, needed);
    }
    hide Safe, Reclaim;
  }

  /** The decodes among ids: each is planned, or the budget is used up, or it is short. */
  ghost predicate DecodesDone(cfg: Config, w: Work, ids: seq<nat>)
    requires cfg.bs > 0
  {
    forall x :: x in w.st.running && x.id in ids && x.PrefillDone() && x.id !in w.scheduled ==>
      w.budget <= 0 || Short(cfg, w, x)
  }

  lemma {:induction false} DecodePhaseThorough(cfg: Config, m: Model, w: Work, ids: seq<nat>)
    requires cfg.bs > 0 && Planning(cfg, m, w)
    requires forall i :: 0 <= i < |ids| ==> ids[i] !in w.scheduled
    requires forall i, j :: 0 <= i < j < |ids| ==> ids[i] != ids[j]
    ensures var w' := DecodePhase(cfg, w, ids);
      && (forall r :: r in w'.st.running ==> r in w.st.running) && w.scheduled <= w'.scheduled
      && DecodesDone(cfg, w', ids)
    decreases |ids|
  {
    hide Planning, DecodeOne, Short, Turned, DecodesDone;
    if ids == [] || w.budget <= 0 {
      NoDecodesLeft(cfg, w, ids);
    } else {
      var id, w1 := ids[0], DecodeOne(cfg, w, ids[0]);
      DecodeOneKeeps(cfg, m, w, id);
      DecodeOneTurns(cfg, m, w, id);
      DecodePhaseThorough(cfg, m, w1, ids[1..]);
      OneMoreDone(cfg, m, w1, id, ids);
    }
  }

  lemma NoDecodesLeft(cfg: Config, w: Work, ids: seq<nat>)
    requires cfg.bs > 0 && (ids == [] || w.budget <= 0)
    ensures DecodesDone(cfg, w, ids)
  {
    hide Short;
  }

  lemma OneMoreDone(cfg: Config, m: Model, w1: Work, id: nat, ids: seq<nat>)
    requires cfg.bs > 0 && ids != [] && ids[0] == id && Planning(cfg, m, w1) && Turned(cfg, w1, id)
    requires forall i :: 1 <= i < |ids| ==> ids[i] !in w1.scheduled
    requires forall i, j :: 0 <= i < j < |ids| ==> ids[i] != ids[j]
    requires var w' := DecodePhase(cfg, w1, ids[1..]);
      && (forall r :: r in w'.st.running ==> r in w1.st.running) && w1.scheduled <= w'.scheduled
      && DecodesDone(cfg, w', ids[1..])
    ensures DecodesDone(cfg, DecodePhase(cfg, w1, ids[1..]), ids)
  {
    hide Planning, DecodePhase, Need, Dry;
    PlanningIs(cfg, m, w1);
    var w' := DecodePhase(cfg, w1, ids[1..]);
    forall x | x in w'.st.running && x.id in ids && x.PrefillDone() && x.id !in w'.scheduled
      ensures w'.budget <= 0 || Short(cfg, w', x)
    {
      if x.id != id {
        assert x.id in ids[1..];
      } else if cfg.preemption {
        forall r | r in w1.st.running
          ensures r.id !in ids[1..]
        {
        }
        GoneSkipped(cfg, w1, ids[1..]);
      } else {
        DryDecodes(cfg, m, w1, ids[1..]);
      }
    }
  }

  // ---- prefills

  /** No slice of the request's prompt is allowed any more. */
  ghost predicate Sated(cfg: Config, w: Work, r: Req)
    requires cfg.bs > 0
  {
    forall n :: !Allowable(cfg, r, n, w.budget, Available(cfg, w))
  }

  /** Less budget and less memory allow no more. */
  lemma SatedStays(cfg: Config, w: Work, w': Work, r: Req)
    requires cfg.bs > 0 && Sated(cfg, w, r) && w'.budget <= w.budget && Available(cfg, w') <= Available(cfg, w)
    ensures Sated(cfg, w', r)
  {
    forall n
      ensures !Allowable(cfg, r, n, w'.budget, Available(cfg, w'))
    {
      assert !Allowable(cfg, r, n, w.budget, Available(cfg, w));
      hide Need;
    }
  }

  lemma PrefillOneTurns(cfg: Config, w: Work, x: Req)
    requires cfg.bs > 0
    ensures var w1 := PrefillOne(cfg, w, x);
      && w1.st == w.st && w1.decodes == w.decodes && w1.budget <= w.budget && w1.reserved >= w.reserved
      && w.scheduled <= w1.scheduled
      && (!x.PrefillDone() && x.id !in w1.scheduled ==> Sated(cfg, w1, x))
  {
    LargestSlice(cfg, x, w.budget, Available(cfg, w));
    hide MakeChunk, Need, Allowable;
  }

  ghost predicate PrefillsDone(cfg: Config, w: Work, i: nat)
    requires cfg.bs > 0
  {
    forall j :: i <= j < |w.st.running| && !w.st.running[j].PrefillDone() && w.st.running[j].id !in w.scheduled ==>
      Sated(cfg, w, w.st.running[j])
  }

  lemma {:induction false} PrefillPhaseThorough(cfg: Config, w: Work, i: nat)
    requires cfg.bs > 0 && i <= |w.st.running|
    ensures var w' := PrefillPhase(cfg, w, i);
      && w'.st == w.st && w'.decodes == w.decodes && w'.budget <= w.budget && w'.reserved >= w.reserved
      && w.scheduled <= w'.scheduled && PrefillsDone(cfg, w', i)
    decreases |w.st.running| - i
  {
    if i < |w.st.running| && w.budget > 0 {
      var x := w.st.running[i];
      var w1 := PrefillOne(cfg, w, x);
      PrefillOneTurns(cfg, w, x);
      PrefillPhaseThorough(cfg, w1, i + 1);
      hide PrefillOne, Sated, PrefillPhase;
      var w' := PrefillPhase(cfg, w1, i + 1);
      if !x.PrefillDone() && x.id !in w'.scheduled {
        SatedStays(cfg, w1, w', x);
      }
    } else {
      hide Need;
    }
  }

  // ---- admission

  /** The head of the queue could not be admitted: no place, no budget, no block, or no slice it could have. */
  ghost predicate HeadRefused(cfg: Config, w: Work)
    requires cfg.bs > 0
  {
    || w.st.waiting == [] || w.budget <= 0 || |w.st.running| >= cfg.maxSeqs
    || (w.st.waiting[0].kv.Some? && Short(cfg, w, w.st.waiting[0]))
    || Sated(cfg, w, w.st.waiting[0])
  }

  /** Later: nothing given back, everybody who ran still runs, and who was added is in the plan. */
  ghost predicate Further(cfg: Config, w: Work, w': Work) {
    && w'.budget <= w.budget && Available(cfg, w') <= Available(cfg, w) && w.scheduled <= w'.scheduled
    && w'.decodes == w.decodes
    && w.st.running <= w'.st.running
    && (forall j :: |w.st.running| <= j < |w'.st.running| ==> w'.st.running[j].id in w'.scheduled)
  }

  lemma FurtherTrans(cfg: Config, w: Work, w1: Work, w2: Work)
    requires Further(cfg, w, w1) && Further(cfg, w1, w2)
    ensures Further(cfg, w, w2)
  {
    hide Available;
  }

  lemma {:induction false} AdmitPhaseThorough(cfg: Config, m: Model, w: Work)
    requires cfg.bs > 0 && Planning(cfg, m, w) && !UndoesHit(cfg, w)
    ensures var w' := AdmitPhase(cfg, w);
      Further(cfg, w, w') && HeadRefused(cfg, w')
    decreases |w.st.waiting|
  {
    hide Planning, Attach, RollBack, MakeChunk, Get, Need, Safe, Sated, Further, HeadRefused;
    if MayAdmit(cfg, w) {
      var e, r, e2 := AdmitTurn(cfg, m, w);
      AdmittedIs(cfg, w, e, r, e2);
      if Need(cfg, e.waiting[0], e.waiting[0].computed + 1) > Available(cfg, w) {
        RefusedForMemory(cfg, w, e);
      } else {
        UndoesUnfolds(cfg, w, e, e2, r);
        match MakeChunk(cfg, r, w.budget, Available(cfg, w))
        case None =>
          RefusedForSlice(cfg, m, w, e, r, e2);
        case Some(c) =>
          var w3 := TakeChunk(cfg, w.(st := e2), r, c);
          OneAdmitted(cfg, w, e, r, e2, c);
          AttachSize(cfg, w.st);
          hide UndoesHit;
          AdmitPhaseThorough(cfg, m, w3);
          FurtherTrans(cfg, w, w3, AdmitPhase(cfg, w3));
      }
    } else {
      AdmitStops(cfg, w);
      NobodyMore(cfg, w);
    }
  }

  lemma UndoesUnfolds(cfg: Config, w: Work, e: State, e2: State, r: Req)
    requires cfg.bs > 0 && MayAdmit(cfg, w) && Admitted(cfg, w, e, r, e2) && !UndoesHit(cfg, w)
    requires e.pool.free == w.st.pool.free && e2.pool == e.pool
    requires Need(cfg, e.waiting[0], e.waiting[0].computed + 1) <= Available(cfg, w)
    ensures match MakeChunk(cfg, r, w.budget, Available(cfg, w))
      case None => r.computed == 0
      case Some(c) => !UndoesHit(cfg, TakeChunk(cfg, w.(st := e2), r, c))
  {
    hide MakeChunk, Need, Attach, TakeChunk;
  }

  lemma NobodyMore(cfg: Config, w: Work)
    requires cfg.bs > 0 && !MayAdmit(cfg, w)
    ensures Further(cfg, w, w) && HeadRefused(cfg, w)
  {
    hide Sated, Need;
  }

  lemma RefusedForMemory(cfg: Config, w: Work, e: State)
    requires cfg.bs > 0 && e.waiting != [] && e.waiting[0].kv.Some? && e.running == w.st.running
    requires e.pool.free == w.st.pool.free
    requires Need(cfg, e.waiting[0], e.waiting[0].computed + 1) > Available(cfg, w)
    ensures Further(cfg, w, w.(st := e)) && HeadRefused(cfg, w.(st := e))
  {
    hide Sated, Need;
  }

  lemma OneAdmitted(cfg: Config, w: Work, e: State, r: Req, e2: State, c: Slice)
    requires cfg.bs > 0 && e2.running == w.st.running + [r] && e2.pool.free == w.st.pool.free
    requires MakeChunk(cfg, r, w.budget, Available(cfg, w)) == Some(c)
    ensures Further(cfg, w, TakeChunk(cfg, w.(st := e2), r, c))
  {
    LargestSlice(cfg, r, w.budget, Available(cfg, w));
    hide MakeChunk, Need, Allowable;
  }

  lemma RefusedForSlice(cfg: Config, m: Model, w: Work, e: State, r: Req, e2: State)
    requires cfg.bs > 0 && Planning(cfg, m, w) && Admitted(cfg, w, e, r, e2) && r.computed == 0 && r.kv.Some?
    requires e.running == w.st.running && e.pool.free == w.st.pool.free && Safe(cfg, m, e2)
    requires MakeChunk(cfg, r, w.budget, Available(cfg, w)).None?
    ensures var w' := w.(st := RollBack(e2));
      Further(cfg, w, w') && HeadRefused(cfg, w')
  {
    hide MakeChunk, Need, Attach, Safe, Planning, UndoesHit;
    AdmittedIs(cfg, w, e, r, e2);
    LargestSlice(cfg, r, w.budget, Available(cfg, w));
    NothingComputed(cfg, m, e2, r);
    var e' := RollBack(e2);
    assert e'.running == w.st.running && e'.waiting[0] == r.(kv := None, status := Waiting);
    assert FreeMany(e2.pool, []) == e2.pool && e2.pool == e.pool;
    hide RollBack, Allowable;
    BareSated(cfg, w, w.(st := e'), r);
  }

  lemma NothingComputed(cfg: Config, m: Model, e: State, r: Req)
    requires Safe(cfg, m, e) && e.running != [] && r == e.running[|e.running| - 1] && r.computed == 0
    ensures r.Table() == []
  {
    hide MemoryOk, OwnershipOk, ViewsOk, NodesOk, OutputsOk, IdsOk;
    assert RunningOk(cfg, r);
    if r.Table() != [] {
      MulMono(0, |r.Table()| - 1, cfg.bs);
    }
  }

  /** Without its empty view the request is refused just as well. */
  lemma BareSated(cfg: Config, w: Work, w': Work, r: Req)
    requires cfg.bs > 0 && r.Table() == [] && w'.budget == w.budget && Available(cfg, w') == Available(cfg, w)
    requires forall n :: !Allowable(cfg, r, n, w.budget, Available(cfg, w))
    ensures Sated(cfg, w', r.(kv := None, status := Waiting))
  {
    forall n
      ensures !Allowable(cfg, r.(kv := None, status := Waiting), n, w'.budget, Available(cfg, w'))
    {
      assert !Allowable(cfg, r, n, w.budget, Available(cfg, w));
    }
  }

  // ---- the whole plan

  /** What the plan leaves of the token budget. */
  ghost function BudgetLeft(cfg: Config, decodes: seq<nat>, chunks: seq<Slice>): int {
    cfg.budget - |decodes| - ChunkTokens(chunks)
  }

  /** What it leaves of the free blocks, above the watermark. */
  ghost function BlocksLeft(cfg: Config, e: State, decodes: seq<nat>, chunks: seq<Slice>): int
    requires cfg.bs > 0
  {
    |e.pool.free| - cfg.watermark - DecodeCost(cfg, e.running, decodes) - ChunkCost(cfg, e.running, chunks)
  }

  ghost predicate CouldDecode(cfg: Config, e: State, decodes: seq<nat>, chunks: seq<Slice>, r: Req)
    requires cfg.bs > 0
  {
    BudgetLeft(cfg, decodes, chunks) > 0 && Need(cfg, r, r.computed + 1) <= BlocksLeft(cfg, e, decodes, chunks)
  }

  ghost predicate CouldPrefill(cfg: Config, e: State, decodes: seq<nat>, chunks: seq<Slice>, r: Req)
    requires cfg.bs > 0
  {
    exists n :: Allowable(cfg, r, n, BudgetLeft(cfg, decodes, chunks), BlocksLeft(cfg, e, decodes, chunks))
  }

  /** Nobody was left out who could have been in. */
  ghost predicate Thorough(cfg: Config, e: State, decodes: seq<nat>, chunks: seq<Slice>)
    requires cfg.bs > 0
  {
    && (forall r :: r in e.running && r.PrefillDone() && r.id !in decodes ==> !CouldDecode(cfg, e, decodes, chunks, r))
    && (forall r :: r in e.running && !r.PrefillDone() && !Sliced(chunks, r.id) ==>
          !CouldPrefill(cfg, e, decodes, chunks, r))
    && (e.waiting != [] && |e.running| < cfg.maxSeqs ==>
          !CouldPrefill(cfg, e, decodes, chunks, e.waiting[0])
          || (e.waiting[0].kv.Some? && !CouldDecode(cfg, e, decodes, chunks, e.waiting[0])))
  }

  /** The plan before forward progress has to be forced. */
  ghost function Planned(cfg: Config, e: State): Work
    requires cfg.bs > 0
  {
    AdmitPhase(cfg, PrefillPhase(cfg, DecodePhase(cfg, Work(e, cfg.budget, 0, {}, [], []), Ids(e.running)), 0))
  }

  /** Decodes, prefills and admissions, all that budget, places and memory allow. */
  lemma PlanIsThorough(cfg: Config, m: Model, e: State)
    requires cfg.bs > 0 && Clean(cfg, e) && Safe(cfg, m, e) && Settled(e)
    ensures var w := Planned(cfg, e);
      Thorough(cfg, w.st, w.decodes, w.chunks) && (!Empty(w) ==> Schedule(cfg, e) == w)
  {
    hide *;
    CleanIs(cfg, e);
    PhasesKeep(cfg, m, e);
    var ids, w0 := Ids(e.running), Work(e, cfg.budget, 0, {}, [], []);
    StartPlanning(cfg, m, e);
    IdsDistinct(e);
    DecodePhaseThorough(cfg, m, w0, ids);
    var w1 := DecodePhase(cfg, w0, ids);
    PrefillPhaseThorough(cfg, w1, 0);
    var w2 := PrefillPhase(cfg, w1, 0);
    AdmitPhaseThorough(cfg, m, w2);
    var w := AdmitPhase(cfg, w2);
    PlannedIs(cfg, e);
    AllDone(cfg, m, e, w1, w2, w);
  }

  lemma PlannedIs(cfg: Config, e: State)
    requires cfg.bs > 0
    ensures Planned(cfg, e) ==
      AdmitPhase(cfg, PrefillPhase(cfg, DecodePhase(cfg, Work(e, cfg.budget, 0, {}, [], []), Ids(e.running)), 0))
    ensures var w := Planned(cfg, e);
      !Empty(w) ==> ForceHead(cfg, BreakStall(cfg, w)) == w
  {
    hide AdmitPhase, PrefillPhase, DecodePhase, Reclaim, MakeRoom, Need;
  }

  lemma AllDone(cfg: Config, m: Model, e: State, w1: Work, w2: Work, w: Work)
    requires cfg.bs > 0 && Planning(cfg, m, w)
    requires (forall r :: r in w1.st.running ==> r in e.running) && DecodesDone(cfg, w1, Ids(e.running))
    requires w2.st == w1.st && w2.budget <= w1.budget && w2.reserved >= w1.reserved && w1.scheduled <= w2.scheduled
    requires PrefillsDone(cfg, w2, 0) && Further(cfg, w2, w) && HeadRefused(cfg, w)
    ensures Thorough(cfg, w.st, w.decodes, w.chunks)
  {
    hide Planning, Need, Allowable, Get, DecodeCost, ChunkCost, ChunkTokens, Safe, Settled;
    PlanningIs(cfg, m, w);
    LeftIs(cfg, w);
    forall r | r in w.st.running && r.id !in w.scheduled
      ensures r.PrefillDone() ==> !CouldDecode(cfg, w.st, w.decodes, w.chunks, r)
      ensures !r.PrefillDone() ==> !CouldPrefill(cfg, w.st, w.decodes, w.chunks, r)
    {
      var j :| 0 <= j < |w.st.running| && w.st.running[j] == r;
      assert j < |w1.st.running| && w1.st.running[j] == r;
      if r.PrefillDone() {
        EarlierDecode(cfg, e, w1, w, r);
      } else {
        SatedStays(cfg, w2, w, r);
        SatedCannot(cfg, w, r);
      }
    }
    HeadCannot(cfg, w);
    PlannedOnce(cfg, m, w);
    hide PlanOk, CouldDecode, CouldPrefill;
  }

  lemma LeftIs(cfg: Config, w: Work)
    requires cfg.bs > 0 && PlanOk(cfg, w)
    ensures BudgetLeft(cfg, w.decodes, w.chunks) == w.budget
    ensures BlocksLeft(cfg, w.st, w.decodes, w.chunks) == Available(cfg, w)
  {
    hide ItemsOk, DecodeCost, ChunkCost, ChunkTokens;
  }

  lemma EarlierDecode(cfg: Config, e: State, w1: Work, w: Work, r: Req)
    requires cfg.bs > 0 && DecodesDone(cfg, w1, Ids(e.running)) && r in w1.st.running && r in e.running
    requires r.PrefillDone() && r.id !in w1.scheduled
    requires w.budget <= w1.budget && Available(cfg, w) <= Available(cfg, w1)
    requires BudgetLeft(cfg, w.decodes, w.chunks) == w.budget
    requires BlocksLeft(cfg, w.st, w.decodes, w.chunks) == Available(cfg, w)
    ensures !CouldDecode(cfg, w.st, w.decodes, w.chunks, r)
  {
    hide Need, BudgetLeft, BlocksLeft, Available;
    var k :| 0 <= k < |e.running| && e.running[k] == r;
    assert Ids(e.running)[k] == r.id;
  }

  lemma SatedCannot(cfg: Config, w: Work, r: Req)
    requires cfg.bs > 0 && (Sated(cfg, w, r) || w.budget <= 0)
    requires BudgetLeft(cfg, w.decodes, w.chunks) == w.budget
    requires BlocksLeft(cfg, w.st, w.decodes, w.chunks) == Available(cfg, w)
    ensures !CouldPrefill(cfg, w.st, w.decodes, w.chunks, r)
  {
    hide RoomFor, BudgetLeft, BlocksLeft, Available;
  }

  lemma HeadCannot(cfg: Config, w: Work)
    requires cfg.bs > 0 && HeadRefused(cfg, w)
    requires BudgetLeft(cfg, w.decodes, w.chunks) == w.budget
    requires BlocksLeft(cfg, w.st, w.decodes, w.chunks) == Available(cfg, w)
    ensures w.st.waiting != [] && |w.st.running| < cfg.maxSeqs ==>
      || !CouldPrefill(cfg, w.st, w.decodes, w.chunks, w.st.waiting[0])
      || (w.st.waiting[0].kv.Some? && !CouldDecode(cfg, w.st, w.decodes, w.chunks, w.st.waiting[0]))
  {
    hide Sated, Allowable, BudgetLeft, BlocksLeft, Available, Need;
    if w.st.waiting != [] {
      var h := w.st.waiting[0];
      if Sated(cfg, w, h) || w.budget <= 0 {
        SatedCannot(cfg, w, h);
      }
    }
  }

  /** Whoever is scheduled is in the plan in its own phase. */
  lemma PlannedOnce(cfg: Config, m: Model, w: Work)
    requires cfg.bs > 0 && Planning(cfg, m, w)
    ensures forall r :: r in w.st.running && r.PrefillDone() && r.id !in w.decodes ==> r.id !in w.scheduled
    ensures forall r :: r in w.st.running && !r.PrefillDone() && !Sliced(w.chunks, r.id) ==> r.id !in w.scheduled
  {
    PlanningIs(cfg, m, w);
    SafeDistinct(cfg, m, w.st);
    hide Planning, Safe, Settled, Affordable, WithinBudget, Get;
    forall r | r in w.st.running && r.id in w.scheduled
      ensures r.PrefillDone() ==> r.id in w.decodes
      ensures !r.PrefillDone() ==> Sliced(w.chunks, r.id)
    {
      GetMember(w.st.running, r);
      DoneIsDecoding(cfg, m, w.st, r);
      InItsPhase(cfg, w, r);
      hide PlanOk;
    }
  }

  lemma InItsPhase(cfg: Config, w: Work, r: Req)
    requires cfg.bs > 0 && PlanOk(cfg, w) && Get(w.st.running, r.id) == Some(r) && r.id in w.scheduled
    ensures r.status == Running ==> r.id in w.decodes
    ensures r.status == Prefill ==> Sliced(w.chunks, r.id)
  {
    hide Get, Affordable, WithinBudget;
    if Sliced(w.chunks, r.id) {
      var c :| c in w.chunks && c.id == r.id;
      assert ChunkReady(Get(w.st.running, c.id), c);
    }
  }
}
