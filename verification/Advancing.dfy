/** Which runs let the oldest request advance: in the next step, and ever. */
module Advancing {
  import opened Numbers
  import opened Blocks
  import opened Paging
  import opened Decoding
  import opened Options
  import opened Radix
  import opened RadixLaws
  import opened Requests
  import opened Scheduling
  import opened Serving
  import opened Safety
  import opened SafetyMoves
  import opened SafetyAdmission
  import opened SafetySchedule
  import opened Runs
  import opened Conservation
  import opened Fairness
  import opened Progress
  import opened Drain
  import opened Batch
  import opened Stalls

  // ---- reachable states

  /** Nobody queued has already left. */
  ghost predicate Apart(e: State) {
    forall r, d :: r in Queued(e) && d in e.done ==> TicketOf(r) != TicketOf(d)
  }

  ghost predicate Between(cfg: Config, m: Model, e: State) {
    && Safe(cfg, m, e) && Settled(e) && MidIsLast(e.running) && Apart(e)
    && (!cfg.caching ==> e.tree.nodes == map[])
  }

  lemma BetweenParts(cfg: Config, m: Model, e: State)
    requires Between(cfg, m, e)
    ensures Safe(cfg, m, e) && Settled(e) && MidIsLast(e.running) && Apart(e)
    ensures !cfg.caching ==> e.tree.nodes == map[]
  {
    hide Safe, Settled, MidIsLast, Apart;
  }

  lemma InBag(e: State, r: Req, d: Req)
    requires r in Queued(e) && d in e.done && TicketOf(r) == TicketOf(d)
    ensures Bag(e)[TicketOf(r)] >= 2
  {
    TicketsConcat(e.running, e.waiting);
    InTickets(Queued(e), r);
    InTickets(e.done, d);
    assert Bag(e) == multiset(Tickets(Queued(e))) + multiset(Tickets(e.done));
  }

  lemma InTickets(q: seq<Req>, r: Req)
    requires r in q
    ensures multiset(Tickets(q))[TicketOf(r)] >= 1
  {
    var i :| 0 <= i < |q| && q[i] == r;
    assert Tickets(q)[i] == TicketOf(r);
    assert TicketOf(r) in Tickets(q);
  }

  lemma RunApart(cfg: Config, m: Model, events: seq<Event>)
    requires cfg.bs > 0 && Run(cfg, m, events).Some?
    ensures Apart(Run(cfg, m, events).value)
  {
    hide Run, Queued;
    RequestsConserved(cfg, m, events);
    Numbered(cfg, events);
    var e := Run(cfg, m, events).value;
    forall r, d | r in Queued(e) && d in e.done
      ensures TicketOf(r) != TicketOf(d)
    {
      CountOnce(Accepted(cfg, events), TicketOf(r));
      if TicketOf(r) == TicketOf(d) {
        InBag(e, r, d);
      }
    }
  }

  lemma RunBetween(cfg: Config, m: Model, events: seq<Event>)
    requires Lively(cfg)
    ensures Run(cfg, m, events).Some? && Between(cfg, m, Run(cfg, m, events).value)
  {
    hide Safe, Settled, MidIsLast, Apart, Run;
    RunSafe(cfg, m, events);
    RunInOrder(cfg, m, events);
    RunApart(cfg, m, events);
    RequestsConserved(cfg, m, events);
  }

  // ---- the next step

  /** The oldest request gets nothing in the next step. */
  ghost predicate Stuck(cfg: Config, e: State)
    requires cfg.bs > 0
  {
    if e.running == [] then |e.pool.free| <= cfg.watermark else Stalled(cfg, e)
  }

  lemma NextTick(cfg: Config, m: Model, events: seq<Event>)
    requires cfg.bs > 0 && Run(cfg, m, events).Some?
    ensures Run(cfg, m, events + [Tick]) == Step(cfg, m, Run(cfg, m, events).value)
  {
    hide Step;
    assert (events + [Tick])[..|events|] == events;
  }

  /** What a stuck step leaves. */
  lemma StuckStep(cfg: Config, m: Model, e: State)
    requires Lively(cfg) && Between(cfg, m, e) && Queued(e) != [] && Stuck(cfg, e)
    ensures Step(cfg, m, e) == Some(Schedule(cfg, e).st)
    ensures var e' := Schedule(cfg, e).st;
      && Line(e') == Line(e) && Empty(Schedule(cfg, e))
      && if e.running == [] then e'.running == [] else e'.running == [e.running[0]] && Stuck(cfg, e')
  {
    hide *;
    LivelyParts(cfg);
    BetweenParts(cfg, m, e);
    StuckIs(cfg, e);
    QueuedFirst(e);
    HeadCase(cfg, m, e);
    ScheduleInOrder(cfg, m, e);
    EmptyStep(cfg, m, e);
    if e.running != [] {
      StillIs(cfg, e, Schedule(cfg, e));
      StuckIs(cfg, Schedule(cfg, e).st);
    }
  }

  lemma EmptyStep(cfg: Config, m: Model, e: State)
    requires cfg.bs > 0
    ensures Empty(Schedule(cfg, e)) ==> Step(cfg, m, e) == Some(Schedule(cfg, e).st)
  {
    hide Schedule, Empty;
  }

  lemma StuckIs(cfg: Config, e: State)
    requires cfg.bs > 0
    ensures e.running == [] ==> (Stuck(cfg, e) <==> |e.pool.free| <= cfg.watermark)
    ensures e.running != [] ==> (Stuck(cfg, e) <==> Stalled(cfg, e))
  {
    hide Stalled;
  }

  lemma StillIs(cfg: Config, e: State, w: Work)
    requires cfg.bs > 0 && StandsStill(cfg, e, w)
    ensures Empty(w) && e.running != [] && w.st.running == [e.running[0]] && Stalled(cfg, w.st)
  {
    hide Empty, Stalled;
  }

  /** The three kinds of heads. */
  lemma HeadCase(cfg: Config, m: Model, e: State)
    requires Lively(cfg) && Between(cfg, m, e) && Queued(e) != []
    ensures !Stuck(cfg, e) ==> HeadGoes(cfg, e)
    ensures Stuck(cfg, e) && e.running != [] ==> StandsStill(cfg, e, Schedule(cfg, e))
    ensures Stuck(cfg, e) && e.running == [] ==> Empty(Schedule(cfg, e)) && Schedule(cfg, e).st.running == []
    ensures Stuck(cfg, e) ==> Empty(Schedule(cfg, e))
  {
    hide *;
    LivelyParts(cfg);
    BetweenParts(cfg, m, e);
    StuckIs(cfg, e);
    QueuedFirst(e);
    if e.running == [] {
      WaitingHeadGoes(cfg, m, e);
    } else {
      if e.running[0].PrefillDone() {
        DecodingHead(cfg, m, e);
      } else {
        PrefillingHead(cfg, m, e);
      }
      if Stuck(cfg, e) {
        StillIs(cfg, e, Schedule(cfg, e));
      }
    }
  }

  /** A request that has left the line is not in it. */
  lemma NotAdvanced(m: Model, e: State, e': State)
    requires Queued(e) != [] && Apart(e') && Line(e') == Line(e)
    requires e'.running == [] || e'.running[0].computed <= Queued(e)[0].computed
    ensures !HeadAdvanced(m, e, e')
  {
    TicketsConcat(e.running, e.waiting);
    TicketsConcat(e'.running, e'.waiting);
    var head := Queued(e)[0];
    assert Tickets(Queued(e'))[0] == TicketOf(head);
    assert TicketOf(Queued(e')[0]) == TicketOf(head) && Queued(e')[0] in Queued(e');
  }

  /**
   The oldest request advances in the next step if and only if it is not stuck: it has
   room in its last block, or it is not running and a block is free above the watermark, or
   it is in its prefill and such a block is free, or it decodes and some block is neither
   its own nor held by those who wait, one lookup by the next in line included.
   */
  lemma OldestAdvancesExactlyWhen(cfg: Config, m: Model, events: seq<Event>)
    requires Lively(cfg) && Run(cfg, m, events).Some? && Queued(Run(cfg, m, events).value) != []
    ensures Run(cfg, m, events + [Tick]).Some?
    ensures HeadAdvanced(m, Run(cfg, m, events).value, Run(cfg, m, events + [Tick]).value) <==>
      !Stuck(cfg, Run(cfg, m, events).value)
  {
    hide *;
    LivelyParts(cfg);
    RunBetween(cfg, m, events);
    RunBetween(cfg, m, events + [Tick]);
    NextTick(cfg, m, events);
    var e, e' := Run(cfg, m, events).value, Run(cfg, m, events + [Tick]).value;
    BetweenParts(cfg, m, e);
    BetweenParts(cfg, m, e');
    HeadCase(cfg, m, e);
    if Stuck(cfg, e) {
      StuckStep(cfg, m, e);
      QueuedFirst(e);
      NotAdvanced(m, e, e');
    } else {
      var e2, e3 := StepAdvances(cfg, m, e);
    }
  }

  // ---- steps that only take blocks back from the cache

  /** Evicting moves blocks from the unpinned to the free, one by one. */
  lemma {:induction false} EvictTrades(c: Cache, k: nat)
    requires TreeOk(c.tree) && PinClosed(c)
    ensures |Unpinned(Evict(c, k))| + |Victims(c, k)| == |Unpinned(c)|
    decreases k
  {
    hide *;
    EvictStep(c, k);
    if k > 0 && Victim(c).Some? {
      var p := Victim(c).value;
      VictimGoes(c);
      EvictTrades(Remove(c, p), k - 1);
      OneLess(Unpinned(c), p);
    }
  }

  lemma VictimGoes(c: Cache)
    requires TreeOk(c.tree) && PinClosed(c) && Victim(c).Some?
    ensures var p := Victim(c).value;
      && p in c.tree.nodes && p in Unpinned(c)
      && TreeOk(Remove(c, p).tree) && PinClosed(Remove(c, p)) && Unpinned(Remove(c, p)) == Unpinned(c) - {p}
  {
    hide TreeOk, PinClosed, Unpinned, Pinned;
    RemovePins(c, Victim(c).value);
    RemoveKeepsTree(c, Victim(c).value);
  }

  lemma OneLess(u: set<Path>, p: Path)
    requires p in u
    ensures |u - {p}| == |u| - 1
  {
  }

  lemma ReclaimTrades(cfg: Config, m: Model, e: State, k: nat)
    requires cfg.bs > 0 && Safe(cfg, m, e)
    ensures |Reclaim(e, k).pool.free| == |e.pool.free| + RadixLaws.Min(k, |Unpinned(CacheOf(e))|)
    ensures |Unpinned(CacheOf(Reclaim(e, k)))| == |Unpinned(CacheOf(e))| - RadixLaws.Min(k, |Unpinned(CacheOf(e))|)
  {
    hide TreeOk, PinClosed, ViewsOk, NodesOk, OutputsOk, IdsOk, Held, Shaped, FreeListOk, ShapesOk, OwnershipOk,
      TakesOldest, Unpinned, Victims, Evict;
    PinsAreClosed(cfg, e);
    EvictTrades(CacheOf(e), k);
    ReclaimIsExact(cfg, m, e, k);
    VictimCount(cfg, m, e, k);
    assert CacheOf(Reclaim(e, k)) == Evict(CacheOf(e), k);
  }

  /** All the blocks that could be free for the head of the queue after its lookup. */
  ghost function Reachable(cfg: Config, e: State): nat
    requires cfg.bs > 0 && e.waiting != []
  {
    |e.pool.free| + |Unpinned(CacheOf(Attach(cfg, e)))|
  }

  /** Nobody runs and no block is free: the step looks up and takes blocks back. */
  lemma QuietStep(cfg: Config, m: Model, e: State)
    requires Lively(cfg) && Between(cfg, m, e) && e.running == [] && e.waiting != [] && |e.pool.free| <= cfg.watermark
    ensures var a, e' := Attach(cfg, e), Schedule(cfg, e).st;
      && e'.running == [] && e'.waiting != [] && Reachable(cfg, e') == Reachable(cfg, e)
      && TicketOf(e'.waiting[0]) == TicketOf(e.waiting[0]) && e'.waiting[0].computed >= e.waiting[0].computed
      && (Unpinned(CacheOf(a)) != {} ==> |Unpinned(CacheOf(Attach(cfg, e')))| < |Unpinned(CacheOf(a))|)
  {
    hide *;
    LivelyParts(cfg);
    BetweenParts(cfg, m, e);
    var w0 := Work(e, cfg.budget, 0, {}, [], []);
    EmptyPhases(cfg, w0);
    ScheduleUnfolds(cfg, e);
    AvailableIs(cfg, w0);
    NobodyAdmitted(cfg, m, w0);
    QuietAttached(cfg, e);
    AttachSafe(cfg, m, e);
    AttachRunning(cfg, e);
    WaitingHead(cfg, m, e);
    AttachedHead(cfg, e);
    var a := Attach(cfg, e);
    AttachKeepsTree(cfg, e);
    NoNodes(a);
    var k := QuietReclaim(cfg, w0.(st := a));
    ReclaimTrades(cfg, m, a, k);
    ReclaimQueues(cfg, m, a, k);
    var e' := if cfg.caching then Reclaim(a, k) else a;
    AttachAgain(cfg, e');
    SomePaths(Unpinned(CacheOf(a)));
    MinGrows(k, |Unpinned(CacheOf(a))|);
    ReachableIs(cfg, e);
    ReachableIs(cfg, e');
  }

  lemma ReachableIs(cfg: Config, e: State)
    requires cfg.bs > 0 && e.waiting != []
    ensures Reachable(cfg, e) == |e.pool.free| + |Unpinned(CacheOf(Attach(cfg, e)))|
  {
  }

  lemma MinGrows(a: nat, b: nat)
    ensures a > 0 && b > 0 ==> RadixLaws.Min(a, b) > 0
  {
  }

  lemma SomePaths(u: set<Path>)
    ensures u == {} <==> |u| == 0
  {
  }

  lemma QuietAttached(cfg: Config, e: State)
    requires cfg.bs > 0 && cfg.maxSeqs >= 1 && e.running == [] && e.waiting != []
    ensures Attached(cfg, e) == Attach(cfg, e)
  {
  }

  lemma AttachKeepsTree(cfg: Config, e: State)
    requires cfg.bs > 0 && e.waiting != []
    ensures !cfg.caching ==> Attach(cfg, e).tree == e.tree
  {
  }

  lemma AttachAgain(cfg: Config, e: State)
    requires cfg.bs > 0 && e.waiting != [] && e.waiting[0].kv.Some?
    ensures Attach(cfg, e) == e
  {
  }

  lemma ReclaimQueues(cfg: Config, m: Model, e: State, k: nat)
    requires cfg.bs > 0 && Safe(cfg, m, e)
    ensures Reclaim(e, k).running == e.running && Reclaim(e, k).waiting == e.waiting
  {
    ReclaimSafe(cfg, m, e, k);
  }

  /** How much the stall branch asks for: at least one block. */
  lemma QuietReclaim(cfg: Config, w: Work) returns (k: nat)
    requires cfg.bs > 0 && w == Work(w.st, w.budget, 0, {}, [], []) && w.st.running == [] && w.st.waiting != []
    ensures k > 0
    ensures ForceHead(cfg, BreakStall(cfg, w)).st == if cfg.caching then Reclaim(w.st, k) else w.st
  {
    hide Evict;
    var short := CeilDiv(w.st.waiting[0].computed + 1, cfg.bs) - |w.st.pool.free|;
    k := if short > 1 then short else 1;
  }

  // ---- ever

  /** The oldest request never advances unless somebody else is cancelled. */
  ghost predicate Doomed(cfg: Config, e: State)
    requires cfg.bs > 0 && Queued(e) != []
  {
    if e.running != [] then Stalled(cfg, e) else Reachable(cfg, e) <= cfg.watermark
  }

  lemma DoomedIs(cfg: Config, e: State)
    requires cfg.bs > 0 && Queued(e) != []
    ensures e.running != [] ==> (Doomed(cfg, e) <==> Stuck(cfg, e))
    ensures e.running == [] ==> e.waiting != [] && (Doomed(cfg, e) <==> Reachable(cfg, e) <= cfg.watermark)
    ensures Doomed(cfg, e) ==> Stuck(cfg, e)
  {
    hide Stalled, Attach;
  }

  /** The head of e' is that of e, no further on. */
  ghost predicate NoFurther(e: State, e': State) {
    && Queued(e) != [] && Line(e') == Line(e)
    && (e'.running == [] || e'.running[0].computed <= Queued(e)[0].computed)
  }

  lemma NoFurtherIs(e: State, e': State)
    requires Queued(e) != []
    ensures NoFurther(e, e') <==>
      Line(e') == Line(e) && (e'.running == [] || e'.running[0].computed <= Queued(e)[0].computed)
    ensures Line(e') == Line(e) ==> Queued(e') != []
  {
    FirstTicket(e);
    FirstTicket(e');
  }

  lemma DoomedStep(cfg: Config, m: Model, e: State)
    requires Lively(cfg) && Between(cfg, m, e) && Queued(e) != [] && Doomed(cfg, e)
    ensures Step(cfg, m, e) == Some(Schedule(cfg, e).st)
    ensures var e' := Schedule(cfg, e).st;
      && Queued(e') != [] && Doomed(cfg, e') && Line(e') == Line(e)
      && (e'.running == [] <==> e.running == []) && (e.running != [] ==> e'.running[0] == e.running[0])
  {
    hide *;
    LivelyParts(cfg);
    DoomedIs(cfg, e);
    StuckStep(cfg, m, e);
    StuckIs(cfg, e);
    var e' := Schedule(cfg, e).st;
    NoFurtherIs(e, e');
    DoomedIs(cfg, e');
    if e.running == [] {
      QuietStep(cfg, m, e);
    }
  }

  /** Waiting longer does not help. */
  lemma {:induction false} DoomedForEver(cfg: Config, m: Model, events: seq<Event>, n: nat)
    requires Lively(cfg) && Run(cfg, m, events).Some? && Queued(Run(cfg, m, events).value) != []
    requires Doomed(cfg, Run(cfg, m, events).value)
    ensures Run(cfg, m, events + Idle(n)).Some?
    ensures var e, e' := Run(cfg, m, events).value, Run(cfg, m, events + Idle(n)).value;
      && Line(e') == Line(e) && (e'.running == [] <==> e.running == [])
      && (e.running != [] ==> e'.running[0] == e.running[0]) && Queued(e') != [] && Doomed(cfg, e')
    decreases n
  {
    hide *;
    LivelyParts(cfg);
    if n == 0 {
      IdleNone(events);
    } else {
      DoomedForEver(cfg, m, events, n - 1);
      RunBetween(cfg, m, events + Idle(n - 1));
      DoomedStep(cfg, m, Run(cfg, m, events + Idle(n - 1)).value);
      IdleMore(events, n - 1);
      NextTick(cfg, m, events + Idle(n - 1));
    }
  }

  /** n steps with no other event let the oldest request advance. */
  ghost predicate AdvancesIn(cfg: Config, m: Model, events: seq<Event>, n: nat)
    requires cfg.bs > 0 && Run(cfg, m, events).Some?
  {
    && Run(cfg, m, events + Idle(n)).Some?
    && HeadAdvanced(m, Run(cfg, m, events).value, Run(cfg, m, events + Idle(n)).value)
  }

  lemma AdvancesIs(cfg: Config, m: Model, events: seq<Event>, n: nat)
    requires cfg.bs > 0 && Run(cfg, m, events).Some? && Run(cfg, m, events + Idle(n)).Some?
    ensures AdvancesIn(cfg, m, events, n) <==>
      HeadAdvanced(m, Run(cfg, m, events).value, Run(cfg, m, events + Idle(n)).value)
  {
    hide Run, HeadAdvanced;
  }

  lemma {:induction false} AdvancesSoon(cfg: Config, m: Model, events: seq<Event>) returns (n: nat)
    requires Lively(cfg) && Run(cfg, m, events).Some? && Queued(Run(cfg, m, events).value) != []
    requires !Doomed(cfg, Run(cfg, m, events).value)
    ensures AdvancesIn(cfg, m, events, n)
    decreases var e := Run(cfg, m, events).value;
      if e.running != [] || e.waiting == [] then 0 else |Unpinned(CacheOf(Attach(cfg, e)))|
  {
    hide *;
    LivelyParts(cfg);
    var e := Run(cfg, m, events).value;
    RunBetween(cfg, m, events);
    RunBetween(cfg, m, events + [Tick]);
    DoomedIs(cfg, e);
    StuckIs(cfg, e);
    IdleNone(events + [Tick]);
    IdleMore(events, 0);
    if !Stuck(cfg, e) {
      OldestAdvancesExactlyWhen(cfg, m, events);
      n := 1;
      AdvancesIs(cfg, m, events, 1);
    } else {
      ReachableIs(cfg, e);
      SomePaths(Unpinned(CacheOf(Attach(cfg, e))));
      QuietStep(cfg, m, e);
      StuckStep(cfg, m, e);
      NextTick(cfg, m, events);
      var e' := Run(cfg, m, events + [Tick]).value;
      NoFurtherIs(e, e');
      DoomedIs(cfg, e');
      var k := AdvancesSoon(cfg, m, events + [Tick]);
      n := k + 1;
      IdleMore(events, k);
      RunBetween(cfg, m, events + Idle(n));
      AdvancesIs(cfg, m, events + [Tick], k);
      QueuedFirst(e);
      QueuedFirst(e');
      AdvancedSince(m, e, e', Run(cfg, m, events + Idle(n)).value);
      AdvancesIs(cfg, m, events, n);
    }
  }

  lemma AdvancedSince(m: Model, e: State, e1: State, e2: State)
    requires Queued(e) != [] && Queued(e1) != [] && HeadAdvanced(m, e1, e2)
    requires TicketOf(Queued(e1)[0]) == TicketOf(Queued(e)[0]) && Queued(e1)[0].computed >= Queued(e)[0].computed
    ensures HeadAdvanced(m, e, e2)
  {
  }

  /**
   The oldest request ever advances, with no other event, if and only if it is not doomed: the
   oldest running request exactly when it does so in the next step, and with nobody running the
   head of the queue exactly when free and unpinned blocks together exceed the watermark.
   */
  lemma EverAdvancesExactlyWhen(cfg: Config, m: Model, events: seq<Event>)
    requires Lively(cfg) && Run(cfg, m, events).Some? && Queued(Run(cfg, m, events).value) != []
    ensures (exists n: nat :: AdvancesIn(cfg, m, events, n)) <==> !Doomed(cfg, Run(cfg, m, events).value)
  {
    hide *;
    LivelyParts(cfg);
    var e := Run(cfg, m, events).value;
    if Doomed(cfg, e) {
      forall n: nat
        ensures !AdvancesIn(cfg, m, events, n)
      {
        DoomedForEver(cfg, m, events, n);
        var e' := Run(cfg, m, events + Idle(n)).value;
        RunBetween(cfg, m, events + Idle(n));
        BetweenParts(cfg, m, e');
        QueuedFirst(e);
        NotAdvanced(m, e, e');
        AdvancesIs(cfg, m, events, n);
      }
    } else {
      var n := AdvancesSoon(cfg, m, events);
    }
  }
}
