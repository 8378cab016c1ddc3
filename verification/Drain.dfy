/** The engine drains within the sum of prompt_len + max_tokens - 1 over its requests. */
module Drain {
  import opened Decoding
  import opened Options
  import opened Requests
  import opened Scheduling
  import opened Serving
  import opened Safety
  import opened SafetyPlan
  import opened SafetySchedule
  import opened SafetyRetire
  import opened Runs
  import opened Conservation
  import opened Fairness
  import opened Progress

  // ---- the measure

  function Weight(ts: seq<Ticket>): nat {
    if ts == [] then 0 else Span(ts[0]) + Weight(ts[1..])
  }

  /** The positions still to be computed, counting only what the oldest request has done so far. */
  function Left(e: State): int {
    if Queued(e) == [] then 0 else Weight(Line(e)) - Queued(e)[0].computed
  }

  lemma {:induction false} WeightConcat(a: seq<Ticket>, b: seq<Ticket>)
    ensures Weight(a + b) == Weight(a) + Weight(b)
    decreases |a|
  {
    if a == [] {
      assert a + b == b;
    } else {
      assert (a + b)[1..] == a[1..] + b;
      WeightConcat(a[1..], b);
    }
  }

  lemma TicketsHead(q: seq<Req>)
    requires q != []
    ensures Tickets(q) == [TicketOf(q[0])] + Tickets(q[1..])
    ensures Weight(Tickets(q)) == Span(TicketOf(q[0])) + Weight(Tickets(q[1..]))
  {
    assert Tickets(q)[1..] == Tickets(q[1..]);
  }

  /** Retiring takes off the weight of what it retires. */
  lemma {:induction false} UnfinishedWeight(q: seq<Req>)
    ensures Weight(Tickets(Unfinished(q))) <= Weight(Tickets(q))
    ensures q != [] && q[0].IsFinished() ==> Weight(Tickets(Unfinished(q))) + Span(TicketOf(q[0])) <= Weight(Tickets(q))
    ensures q != [] && !q[0].IsFinished() ==> Unfinished(q) != [] && Unfinished(q)[0] == q[0]
    decreases |q|
  {
    if q != [] {
      UnfinishedWeight(q[1..]);
      TicketsHead(q);
      var u := Unfinished(q[1..]);
      hide Weight, Tickets, Unfinished;
      if q[0].IsFinished() {
        UnfinishedCons(q);
        assert [] + u == u;
      } else {
        UnfinishedCons(q);
        TicketsHead([q[0]] + u);
        assert ([q[0]] + u)[1..] == u;
      }
    }
  }

  lemma UnfinishedCons(q: seq<Req>)
    requires q != []
    ensures Unfinished(q) == (if q[0].IsFinished() then [] else [q[0]]) + Unfinished(q[1..])
  {
  }

  lemma HeadBelowSpan(cfg: Config, m: Model, e: State)
    requires Safe(cfg, m, e) && Settled(e) && Queued(e) != []
    ensures Queued(e)[0].computed < Span(TicketOf(Queued(e)[0])) <= Weight(Line(e))
  {
    var head := Queued(e)[0];
    QueuedFirst(e);
    if e.running != [] {
      RunningHead(cfg, m, e);
    } else {
      WaitingHead(cfg, m, e);
    }
    BelowSpan(cfg, head);
    FirstTicket(e);
  }

  lemma LeftIsPositive(cfg: Config, m: Model, e: State)
    requires Safe(cfg, m, e) && Settled(e)
    ensures Left(e) >= 0 && (Left(e) == 0 <==> Queued(e) == [])
  {
    hide Safe, Settled, Line, Span, Queued;
    if Queued(e) != [] {
      HeadBelowSpan(cfg, m, e);
    }
  }

  // ---- one step

  lemma AfterRetiring(e2: State, e': State, before: seq<Ticket>)
    requires Tickets(e2.running) + Tickets(e'.waiting) == before && e'.running == Unfinished(e2.running)
    ensures Weight(Line(e')) <= Weight(before)
    ensures e2.running != [] && e2.running[0].IsFinished() ==>
      Weight(Line(e')) + Span(TicketOf(e2.running[0])) <= Weight(before)
    ensures e2.running != [] && !e2.running[0].IsFinished() ==> e'.running != [] && e'.running[0] == e2.running[0]
    ensures forall t :: t in Line(e') ==> t in before
  {
    WeightConcat(Tickets(e2.running), Tickets(e'.waiting));
    WeightConcat(Tickets(e'.running), Tickets(e'.waiting));
    UnfinishedWeight(e2.running);
    hide Weight;
    forall t | t in Line(e')
      ensures t in before
    {
      if t in Tickets(e'.running) {
        var i :| 0 <= i < |Tickets(e'.running)| && Tickets(e'.running)[i] == t;
        assert e'.running[i] in e2.running;
        TicketIn(e2.running, e'.running[i]);
      } else {
        assert t in Tickets(e'.waiting);
      }
    }
  }

  lemma TicketIn(q: seq<Req>, r: Req)
    requires r in q
    ensures TicketOf(r) in Tickets(q)
  {
    var i :| 0 <= i < |q| && q[i] == r;
    assert Tickets(q)[i] == TicketOf(r);
  }

  /** A step with nothing queued does nothing to the queues. */
  lemma IdleStep(cfg: Config, m: Model, e: State)
    requires Progressive(cfg) && Steady(cfg, m, e) && Queued(e) == []
    ensures Step(cfg, m, e).Some? && Line(Step(cfg, m, e).value) == Line(e) && Queued(Step(cfg, m, e).value) == []
  {
    hide *;
    ProgressiveParts(cfg);
    SteadyParts(cfg, m, e);
    ScheduleInOrder(cfg, m, e);
    ScheduleIsExecutable(cfg, m, e);
    var w := Schedule(cfg, e);
    FirstTicket(e);
    FirstTicket(w.st);
    QueuedFirst(w.st);
    ExecutableItems(cfg, w);
    NothingToDo(w);
    var e2, e' := StepSafe(cfg, m, e);
  }

  lemma NothingToDo(w: Work)
    requires w.st.running == [] && ItemsOk(w.st.running, w.decodes, w.chunks)
    ensures Empty(w)
  {
    FirstIsMember(w.decodes);
    FirstIsMember(w.chunks);
  }

  lemma FirstIsMember<T>(s: seq<T>)
    ensures s != [] ==> s[0] in s
  {
  }

  lemma FitsLater(cfg: Config, e: State, e': State)
    requires Fits(cfg, e) && forall t :: t in Line(e') ==> t in Line(e)
    ensures Fits(cfg, e')
  {
    hide FitsOne, Line;
  }

  lemma SteadyIs(cfg: Config, m: Model, e: State)
    requires Safe(cfg, m, e) && Settled(e) && MidIsLast(e.running) && InOrder(e) && e.tree.nodes == map[]
    requires Fits(cfg, e)
    ensures Steady(cfg, m, e)
  {
    hide Safe, Settled, MidIsLast, InOrder, Fits;
  }

  lemma TreeStays(cfg: Config, e: State, e': State)
    requires Conserves(cfg, e, e') && !cfg.caching
    ensures e'.tree == e.tree
  {
    hide Bag;
  }

  lemma SteadyStep(cfg: Config, m: Model, e: State)
    requires Progressive(cfg) && Steady(cfg, m, e)
    ensures Step(cfg, m, e).Some? && Steady(cfg, m, Step(cfg, m, e).value)
    ensures Left(Step(cfg, m, e).value) < Left(e) || Queued(e) == [] == Queued(Step(cfg, m, e).value)
  {
    hide *;
    ProgressiveParts(cfg);
    SteadyParts(cfg, m, e);
    var e', _ := StepSafe(cfg, m, e);
    e' := Step(cfg, m, e).value;
    StepInOrder(cfg, m, e);
    StepConserves(cfg, m, e);
    TreeStays(cfg, e, e');
    if Queued(e) == [] {
      IdleStep(cfg, m, e);
    } else {
      var e2, e1 := HeadAdvances(cfg, m, e);
      AfterRetiring(e2, e', Line(e));
      HeadBelowSpan(cfg, m, e);
      LeftFalls(e, e2, e');
    }
    FitsLater(cfg, e, e');
    SteadyIs(cfg, m, e');
  }

  lemma LeftFalls(e: State, e2: State, e': State)
    requires Queued(e) != [] && e2.running != []
    requires TicketOf(e2.running[0]) == TicketOf(Queued(e)[0]) && e2.running[0].computed > Queued(e)[0].computed
    requires Weight(Line(e')) <= Weight(Line(e))
    requires e2.running[0].IsFinished() ==> Weight(Line(e')) + Span(TicketOf(e2.running[0])) <= Weight(Line(e))
    requires !e2.running[0].IsFinished() ==> e'.running != [] && e'.running[0] == e2.running[0]
    requires Queued(e)[0].computed < Span(TicketOf(Queued(e)[0])) <= Weight(Line(e))
    ensures Left(e') < Left(e)
  {
    hide Weight, Line, Span;
    QueuedFirst(e');
  }

  // ---- many steps

  ghost function Ticks(cfg: Config, m: Model, e: State, n: nat): Option<State>
    requires cfg.bs > 0
  {
    if n == 0 then Some(e)
    else
      var before := Ticks(cfg, m, e, n - 1);
      if before.None? then None else Step(cfg, m, before.value)
  }

  /** n steps bring the measure down by n, or to nothing. */
  lemma {:induction false} TicksDrain(cfg: Config, m: Model, e: State, n: nat)
    requires Progressive(cfg) && Steady(cfg, m, e)
    ensures Ticks(cfg, m, e, n).Some? && Steady(cfg, m, Ticks(cfg, m, e, n).value)
    ensures Left(Ticks(cfg, m, e, n).value) <= Max(0, Left(e) - n)
    decreases n
  {
    hide Steady, Left, Step;
    if n > 0 {
      TicksDrain(cfg, m, e, n - 1);
      var e1 := Ticks(cfg, m, e, n - 1).value;
      SteadyStep(cfg, m, e1);
      SteadyLeft(cfg, m, e1);
      SteadyLeft(cfg, m, Step(cfg, m, e1).value);
    } else {
      SteadyLeft(cfg, m, e);
    }
  }

  lemma SteadyLeft(cfg: Config, m: Model, e: State)
    requires Steady(cfg, m, e)
    ensures Left(e) >= 0 && (Left(e) == 0 <==> Queued(e) == [])
  {
    hide Left, Queued;
    SteadyParts(cfg, m, e);
    hide Steady;
    LeftIsPositive(cfg, m, e);
  }

  function Idle(n: nat): seq<Event> { seq(n, _ => Tick) }

  lemma IdleNone(events: seq<Event>)
    ensures events + Idle(0) == events
  {
  }

  lemma IdleMore(events: seq<Event>, n: nat)
    ensures events + Idle(n) + [Tick] == events + Idle(n + 1)
    ensures events + [Tick] + Idle(n) == events + Idle(n + 1)
  {
    assert Idle(n) + [Tick] == Idle(n + 1);
  }

  lemma {:induction false} RunTicks(cfg: Config, m: Model, events: seq<Event>, n: nat)
    requires cfg.bs > 0 && Run(cfg, m, events).Some?
    ensures Run(cfg, m, events + Idle(n)) == Ticks(cfg, m, Run(cfg, m, events).value, n)
    ensures Accepted(cfg, events + Idle(n)) == Accepted(cfg, events)
    decreases n
  {
    hide Step;
    var all := events + Idle(n);
    if n == 0 {
      assert all == events;
    } else {
      RunTicks(cfg, m, events, n - 1);
      assert all[..|all| - 1] == events + Idle(n - 1);
      assert all[|all| - 1] == Tick;
    }
  }

  /** Every submission of the history fits in the pool above the watermark. */
  ghost predicate AllFit(cfg: Config, events: seq<Event>) {
    forall t :: t in Accepted(cfg, events) ==> FitsOne(cfg, t)
  }

  lemma LineIsAccepted(cfg: Config, m: Model, events: seq<Event>)
    requires cfg.bs > 0 && Run(cfg, m, events).Some?
    ensures multiset(Line(Run(cfg, m, events).value)) <= multiset(Accepted(cfg, events))
  {
    hide Run, Accepted, Tickets;
    RequestsConserved(cfg, m, events);
  }

  lemma RunIsSteady(cfg: Config, m: Model, events: seq<Event>)
    requires Progressive(cfg) && AllFit(cfg, events)
    ensures Run(cfg, m, events).Some? && Steady(cfg, m, Run(cfg, m, events).value)
  {
    hide Run, Accepted, FitsOne, Safe, Settled, InOrder, MidIsLast, Line;
    RunSafe(cfg, m, events);
    RunInOrder(cfg, m, events);
    RequestsConserved(cfg, m, events);
    LineIsAccepted(cfg, m, events);
    forall t | t in Line(Run(cfg, m, events).value)
      ensures t in Accepted(cfg, events)
    {
      assert t in multiset(Line(Run(cfg, m, events).value));
    }
  }

  /** In every run of a progressive engine whose requests fit, the oldest request advances in the next step. */
  lemma OldestAlwaysAdvances(cfg: Config, m: Model, events: seq<Event>)
    requires Progressive(cfg) && AllFit(cfg, events) && Run(cfg, m, events).Some?
    requires Queued(Run(cfg, m, events).value) != []
    ensures Step(cfg, m, Run(cfg, m, events).value).Some?
    ensures HeadAdvanced(m, Run(cfg, m, events).value, Step(cfg, m, Run(cfg, m, events).value).value)
  {
    hide *;
    ProgressiveParts(cfg);
    RunIsSteady(cfg, m, events);
    var e2, e' := HeadAdvances(cfg, m, Run(cfg, m, events).value);
  }

  lemma {:induction false} WeightPermutes(a: seq<Ticket>, b: seq<Ticket>)
    requires multiset(a) <= multiset(b)
    ensures Weight(a) <= Weight(b)
    decreases |a|
  {
    if a != [] {
      var i := TakeFirst(a, b);
      WeightPermutes(a[1..], b[..i] + b[i + 1..]);
      WeightAround(b, i);
    }
  }

  /** Where the first of a is in b, and what both keep without it. */
  lemma TakeFirst(a: seq<Ticket>, b: seq<Ticket>) returns (i: nat)
    requires a != [] && multiset(a) <= multiset(b)
    ensures i < |b| && b[i] == a[0] && multiset(a[1..]) <= multiset(b[..i] + b[i + 1..])
  {
    assert a == [a[0]] + a[1..];
    assert a[0] in multiset(a);
    assert a[0] in b;
    i :| 0 <= i < |b| && b[i] == a[0];
    Around(b, i);
    LessOne(multiset(a[1..]), multiset(b[..i] + b[i + 1..]), a[0]);
  }

  lemma LessOne(a: multiset<Ticket>, b: multiset<Ticket>, t: Ticket)
    requires multiset{t} + a <= b + multiset{t}
    ensures a <= b
  {
    forall x
      ensures a[x] <= b[x]
    {
      assert (multiset{t} + a)[x] <= (b + multiset{t})[x];
    }
  }

  lemma Around(b: seq<Ticket>, i: nat)
    requires i < |b|
    ensures b == b[..i] + ([b[i]] + b[i + 1..])
    ensures multiset(b) == multiset(b[..i] + b[i + 1..]) + multiset{b[i]}
  {
    assert b == b[..i] + ([b[i]] + b[i + 1..]);
  }

  lemma WeightOne(t: Ticket)
    ensures Weight([t]) == Span(t)
  {
    assert [t][1..] == [];
  }

  lemma WeightAround(b: seq<Ticket>, i: nat)
    requires i < |b|
    ensures Weight(b) == Span(b[i]) + Weight(b[..i] + b[i + 1..])
  {
    hide Weight, Span;
    Around(b, i);
    WeightConcat(b[..i], [b[i]] + b[i + 1..]);
    WeightConcat([b[i]], b[i + 1..]);
    WeightConcat(b[..i], b[i + 1..]);
    WeightOne(b[i]);
  }

  /** The engine drains: as many steps as the sum of prompt_len + max_tokens - 1 empty its queues. */
  lemma Drains(cfg: Config, m: Model, events: seq<Event>, n: nat)
    requires Progressive(cfg) && AllFit(cfg, events) && n >= Weight(Accepted(cfg, events))
    ensures Run(cfg, m, events + Idle(n)).Some?
    ensures var e := Run(cfg, m, events + Idle(n)).value;
      e.running == [] && e.waiting == []
  {
    hide *;
    ProgressiveParts(cfg);
    RunIsSteady(cfg, m, events);
    var e := Run(cfg, m, events).value;
    TicksDrain(cfg, m, e, n);
    RunTicks(cfg, m, events, n);
    LineIsAccepted(cfg, m, events);
    WeightPermutes(Line(e), Accepted(cfg, events));
    LeftBound(e);
    MaxBounds(Left(e) - n);
    var e1 := Ticks(cfg, m, e, n).value;
    SteadyLeft(cfg, m, e1);
    QueuedFirst(e1);
  }

  lemma LeftBound(e: State)
    ensures Left(e) <= Weight(Line(e))
  {
    hide Weight, Line, Queued;
  }

  lemma MaxBounds(a: int)
    ensures a <= 0 ==> Max(0, a) == 0
  {
  }

  // ---- everything submitted comes back

  lemma {:induction false} RetiredFinished(cfg: Config, q: seq<Req>)
    requires forall r :: r in q ==> RunningOk(cfg, r)
    ensures forall r :: r in Retired(q) ==> r.status == Finished
    decreases |q|
  {
    if q != [] {
      RetiredFinished(cfg, q[1..]);
      assert RunningOk(cfg, q[0]);
      hide PagedOk;
    }
  }

  lemma RunningShapes(cfg: Config, m: Model, e: State)
    requires Safe(cfg, m, e)
    ensures forall r :: r in e.running ==> RunningOk(cfg, r)
  {
    hide MemoryOk, OwnershipOk, ViewsOk, NodesOk, OutputsOk, IdsOk, RunningOk;
  }

  lemma Collected(cfg: Config, e: State, ts: seq<Ticket>, t: Ticket) returns (r: Req)
    requires e.running == [] && e.waiting == [] && Bag(e) == multiset(ts) && t in ts
    ensures r in e.done && TicketOf(r) == t
  {
    assert Tickets(e.running) == [] && Tickets(e.waiting) == [];
    assert t in multiset(ts);
    assert t in Tickets(e.done);
    var i :| 0 <= i < |e.done| && Tickets(e.done)[i] == t;
    r := e.done[i];
  }
}
