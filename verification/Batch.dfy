/** What a batch comes to: whoever has left the engine by finishing got exactly plain decoding. */
module Batch {
  import opened Blocks
  import opened Decoding
  import opened Radix
  import opened Requests
  import opened Scheduling
  import opened Serving
  import opened Safety
  import opened SafetySchedule
  import opened SafetyExec
  import opened SafetyRetire
  import opened Runs
  import opened Conservation
  import opened Progress
  import opened Drain

  // ---- schedule() retires nobody and writes nothing

  lemma {:induction false} PreemptUntilDone(cfg: Config, e: State, needed: nat, protected: set<nat>)
    ensures PreemptUntil(cfg, e, needed, protected).done == e.done
    ensures PreemptUntil(cfg, e, needed, protected).mem == e.mem
    decreases |e.running|
  {
    var v := NewestUnprotected(e.running, protected);
    if FreeBlocks(cfg, e) < needed && v.Some? {
      PreemptUntilDone(cfg, Preempt(e, v.value), needed, protected);
    }
  }

  lemma MakeRoomDone(cfg: Config, e: State, needed: nat, protected: set<nat>)
    ensures MakeRoom(cfg, e, needed, protected).done == e.done && MakeRoom(cfg, e, needed, protected).mem == e.mem
  {
    hide Evict, PreemptUntil;
    PreemptUntilDone(cfg, ReclaimFor(cfg, e, needed), needed, protected);
  }

  lemma {:induction false} DecodePhaseDone(cfg: Config, w: Work, ids: seq<nat>)
    requires cfg.bs > 0
    ensures DecodePhase(cfg, w, ids).st.done == w.st.done && DecodePhase(cfg, w, ids).st.mem == w.st.mem
    decreases |ids|
  {
    if ids != [] && w.budget > 0 {
      DecodeOneDone(cfg, w, ids[0]);
      hide DecodeOne;
      DecodePhaseDone(cfg, DecodeOne(cfg, w, ids[0]), ids[1..]);
    }
  }

  lemma DecodeOneDone(cfg: Config, w: Work, id: nat)
    requires cfg.bs > 0
    ensures DecodeOne(cfg, w, id).st.done == w.st.done && DecodeOne(cfg, w, id).st.mem == w.st.mem
  {
    hide MakeRoom, Need;
    var i := Find(w.st.running, id);
    if i < |w.st.running| {
      var r := w.st.running[i];
      MakeRoomDone(cfg, w.st, Need(cfg, r, r.computed + 1) + w.reserved, w.scheduled + {id});
    }
  }

  lemma {:induction false} AdmitPhaseDone(cfg: Config, w: Work)
    requires cfg.bs > 0
    ensures AdmitPhase(cfg, w).st.done == w.st.done && AdmitPhase(cfg, w).st.mem == w.st.mem
    decreases |w.st.waiting|
  {
    hide MakeChunk, Need, Attach;
    if w.st.waiting != [] && w.budget > 0 && |w.st.running| < cfg.maxSeqs {
      var e := Attach(cfg, w.st);
      AttachSize(cfg, w.st);
      AttachDone(cfg, w.st);
      if Need(cfg, e.waiting[0], e.waiting[0].computed + 1) <= Available(cfg, w.(st := e)) {
        var w2 := w.(st := Admit(e));
        var r := w2.st.running[|w2.st.running| - 1];
        match MakeChunk(cfg, r, w2.budget, Available(cfg, w2))
        case None =>
        case Some(c) => AdmitPhaseDone(cfg, TakeChunk(cfg, w2, r, c));
      }
    }
  }

  lemma AttachDone(cfg: Config, e: State)
    requires cfg.bs > 0 && e.waiting != []
    ensures Attach(cfg, e).done == e.done && Attach(cfg, e).mem == e.mem && Attach(cfg, e).waiting != []
  {
    hide MatchBlocks, MatchTree, IncrefMany;
  }

  lemma StallDone(cfg: Config, w: Work)
    requires cfg.bs > 0
    ensures ForceHead(cfg, BreakStall(cfg, w)).st.done == w.st.done
    ensures ForceHead(cfg, BreakStall(cfg, w)).st.mem == w.st.mem
  {
    hide Evict, MakeRoom, Need;
    var w1 := BreakStall(cfg, w);
    assert w1.st.done == w.st.done;
    if w1.st.running != [] {
      var head := w1.st.running[0];
      MakeRoomDone(cfg, w1.st, Need(cfg, head, head.computed + 1), {head.id});
    }
  }

  lemma ScheduleDone(cfg: Config, e: State)
    requires cfg.bs > 0
    ensures Schedule(cfg, e).st.done == e.done && Schedule(cfg, e).st.mem == e.mem
  {
    hide DecodePhase, PrefillPhase, AdmitPhase, BreakStall, ForceHead;
    var w0 := Work(e, cfg.budget, 0, {}, [], []);
    DecodePhaseDone(cfg, w0, Ids(e.running));
    var w1 := DecodePhase(cfg, w0, Ids(e.running));
    PrefillPhaseState(cfg, w1, 0);
    var w2 := PrefillPhase(cfg, w1, 0);
    AdmitPhaseDone(cfg, w2);
    StallDone(cfg, AdmitPhase(cfg, w2));
  }

  /** What a step adds to the history is what it retires. */
  lemma StepDone(cfg: Config, m: Model, e: State)
    requires cfg.bs > 0 && Clean(cfg, e) && Safe(cfg, m, e) && Settled(e)
    ensures Step(cfg, m, e).Some?
    ensures e.done <= Step(cfg, m, e).value.done
    ensures forall d :: d in Step(cfg, m, e).value.done ==> d in e.done || d.status == Finished
  {
    hide *;
    var e2, e' := StepKeeps(cfg, m, e);
    var w := Schedule(cfg, e);
    ScheduleDone(cfg, e);
    if Empty(w) {
      Grown(e, e', []);
    } else {
      SteppedDone(cfg, e, w, e2, e');
      RunningShapes(cfg, m, e2);
      RetiredFinished(cfg, e2.running);
      Grown(e, e', Retired(e2.running));
    }
  }

  lemma SteppedDone(cfg: Config, e: State, w: Work, e2: State, e': State)
    requires cfg.bs > 0 && Stepped(cfg, e, w, e2, e')
    ensures e'.done == w.st.done + Retired(e2.running)
  {
    hide Schedule, Evolved, AllFulfilled;
  }

  lemma Grown(e: State, e': State, more: seq<Req>)
    requires e'.done == e.done + more && forall r :: r in more ==> r.status == Finished
    ensures e.done <= e'.done
    ensures forall d :: d in e'.done ==> d in e.done || d.status == Finished
  {
  }

  // ---- who is aborted

  /** Somebody cancelled this submission after it was accepted. */
  ghost predicate WasCancelled(cfg: Config, events: seq<Event>, id: nat)
    decreases |events|
  {
    events != [] &&
    var before := events[..|events| - 1];
    WasCancelled(cfg, before, id) || (events[|events| - 1] == Cancel(id) && id < |Accepted(cfg, before)|)
  }

  lemma AbortDone(e: State, id: nat, d: Req)
    requires d in Abort(e, id).done
    ensures d in e.done || d.id == id
  {
  }

  /** Whoever has left has finished, unless that very request was cancelled. */
  lemma {:induction false} LeftFinished(cfg: Config, m: Model, events: seq<Event>, d: Req)
    requires cfg.bs > 0 && CleanRun(cfg, m, events) && Run(cfg, m, events).Some? && d in Run(cfg, m, events).value.done
    ensures d.status == Finished || WasCancelled(cfg, events, d.id)
    decreases |events|
  {
    hide Safe, Settled, Step, Abort, Init, Clean, Acceptable;
    if events == [] {
      NobodyYet(cfg, m);
    } else {
      var before, last := events[..|events| - 1], events[|events| - 1];
      RunKeeps(cfg, m, before);
      var e := Run(cfg, m, before).value;
      DoneTicket(cfg, m, events, d);
      match last
      case Add(prompt, maxTokens, ignoreEos) =>
        LeftFinished(cfg, m, before, d);
      case Cancel(id) =>
        AbortDone(e, id, d);
        if d in e.done {
          LeftFinished(cfg, m, before, d);
        }
      case Tick =>
        StepDone(cfg, m, e);
        if d in e.done {
          LeftFinished(cfg, m, before, d);
        }
    }
  }

  lemma NobodyYet(cfg: Config, m: Model)
    ensures Init(cfg, m).done == []
  {
  }

  /** Nobody can cancel a submission before it is there. */
  lemma {:induction false} FreshUncancelled(cfg: Config, events: seq<Event>, id: nat)
    requires id >= |Accepted(cfg, events)|
    ensures !WasCancelled(cfg, events, id)
    decreases |events|
  {
    hide Acceptable;
    if events != [] {
      FreshUncancelled(cfg, events[..|events| - 1], id);
    }
  }

  lemma {:induction false} QuietTail(cfg: Config, events: seq<Event>, more: seq<Event>, id: nat)
    requires Cancel(id) !in more
    ensures WasCancelled(cfg, events + more, id) == WasCancelled(cfg, events, id)
    decreases |more|
  {
    hide Accepted;
    if more == [] {
      assert events + more == events;
    } else {
      var front, all := more[..|more| - 1], events + more;
      QuietTail(cfg, events, front, id);
      assert all[..|all| - 1] == events + front && all[|all| - 1] == more[|more| - 1];
      assert more[|more| - 1] in more;
    }
  }

  // ---- tickets and records

  lemma {:induction false} Numbered(cfg: Config, events: seq<Event>)
    ensures forall k :: 0 <= k < |Accepted(cfg, events)| ==> Accepted(cfg, events)[k].id == k
    decreases |events|
  {
    hide Acceptable;
    if events != [] {
      Numbered(cfg, events[..|events| - 1]);
    }
  }

  lemma {:induction false} CountOnce(ts: seq<Ticket>, t: Ticket)
    requires forall k :: 0 <= k < |ts| ==> ts[k].id == k
    ensures multiset(ts)[t] <= 1
    ensures t.id >= |ts| ==> multiset(ts)[t] == 0
    decreases |ts|
  {
    if ts != [] {
      var last := |ts| - 1;
      CountOnce(ts[..last], t);
      assert ts == ts[..last] + [ts[last]];
    }
  }

  /** A record in the history is the submission with its number. */
  lemma DoneTicket(cfg: Config, m: Model, events: seq<Event>, d: Req)
    requires cfg.bs > 0 && Run(cfg, m, events).Some? && d in Run(cfg, m, events).value.done
    ensures d.id < |Accepted(cfg, events)| == Run(cfg, m, events).value.nextId
    ensures TicketOf(d) == Accepted(cfg, events)[d.id]
  {
    RequestsConserved(cfg, m, events);
    Numbered(cfg, events);
    hide Run, Accepted;
    var e, ts := Run(cfg, m, events).value, Accepted(cfg, events);
    TicketIn(e.done, d);
    assert TicketOf(d) in Tickets(e.done);
    assert TicketOf(d) in Bag(e);
    assert TicketOf(d) in multiset(ts);
    var k :| 0 <= k < |ts| && ts[k] == TicketOf(d);
  }

  /** Once the queues are empty every accepted submission is in the history. */
  lemma Present(cfg: Config, m: Model, events: seq<Event>, k: nat) returns (d: Req)
    requires cfg.bs > 0 && Run(cfg, m, events).Some? && k < |Accepted(cfg, events)|
    requires Run(cfg, m, events).value.running == [] && Run(cfg, m, events).value.waiting == []
    ensures d in Run(cfg, m, events).value.done && d.id == k
  {
    RequestsConserved(cfg, m, events);
    Numbered(cfg, events);
    hide Run, Accepted, Bag;
    d := Collected(cfg, Run(cfg, m, events).value, Accepted(cfg, events), Accepted(cfg, events)[k]);
  }

  /** Whoever has left without being cancelled got exactly plain decoding of its submission. */
  lemma Served(cfg: Config, m: Model, events: seq<Event>, d: Req)
    requires cfg.bs > 0 && CleanRun(cfg, m, events) && Run(cfg, m, events).Some? && d in Run(cfg, m, events).value.done
    requires !WasCancelled(cfg, events, d.id)
    ensures d.id < |Accepted(cfg, events)| && d.status == Finished
    ensures var t := Accepted(cfg, events)[d.id];
      t.prompt != [] && d.output == Continue(m, t.prompt, t.maxTokens, t.ignoreEos)
  {
    DoneTicket(cfg, m, events, d);
    LeftFinished(cfg, m, events, d);
    OutputEquivalence(cfg, m, events, d);
    hide Run, Accepted, Continue, CleanRun, WasCancelled;
  }

  // ---- a batch of submissions

  function Adds(prompts: seq<seq<Token>>, maxTokens: int, ignoreEos: bool): (evs: seq<Event>)
    ensures |evs| == |prompts|
    ensures forall i :: 0 <= i < |prompts| ==> evs[i] == Add(prompts[i], maxTokens, ignoreEos)
  {
    seq(|prompts|, i requires 0 <= i < |prompts| => Add(prompts[i], maxTokens, ignoreEos))
  }

  /** Acceptable submissions are numbered in order, after what was there. */
  lemma {:induction false} AddsAccepted(cfg: Config, events: seq<Event>, prompts: seq<seq<Token>>, maxTokens: int,
                                        ignoreEos: bool, i: nat)
    requires maxTokens > 0 && forall p :: p in prompts ==> Acceptable(cfg, p, maxTokens)
    ensures var ts, ts' := Accepted(cfg, events), Accepted(cfg, events + Adds(prompts, maxTokens, ignoreEos));
      && |ts'| == |ts| + |prompts|
      && (i < |prompts| ==> ts'[|ts| + i] == Ticket(|ts| + i, prompts[i], maxTokens, ignoreEos))
    decreases |prompts|
  {
    hide Acceptable;
    var all := events + Adds(prompts, maxTokens, ignoreEos);
    if prompts == [] {
      assert all == events;
    } else {
      var front := prompts[..|prompts| - 1];
      AddsAccepted(cfg, events, front, maxTokens, ignoreEos, i);
      assert all[..|all| - 1] == events + Adds(front, maxTokens, ignoreEos);
      assert all[|all| - 1] == Add(prompts[|prompts| - 1], maxTokens, ignoreEos);
    }
  }

  /** A batch submitted now is nobody's to have cancelled. */
  lemma BatchUncancelled(cfg: Config, start: seq<Event>, prompts: seq<seq<Token>>, maxTokens: int, ignoreEos: bool,
                         n: nat, id: nat)
    requires id >= |Accepted(cfg, start)|
    ensures !WasCancelled(cfg, start + Adds(prompts, maxTokens, ignoreEos) + Idle(n), id)
  {
    hide Accepted, WasCancelled;
    FreshUncancelled(cfg, start, id);
    QuietTail(cfg, start, Adds(prompts, maxTokens, ignoreEos), id);
    QuietTail(cfg, start + Adds(prompts, maxTokens, ignoreEos), Idle(n), id);
  }

  /**
   The batch promise: after enough steps every accepted submission that nobody has
   cancelled has finished, and its output is exactly plain one-request decoding of its
   own prompt.
   */
  lemma EveryoneIsServed(cfg: Config, m: Model, events: seq<Event>, n: nat, k: nat) returns (d: Req)
    requires Progressive(cfg) && AllFit(cfg, events) && n >= Weight(Accepted(cfg, events))
    requires k < |Accepted(cfg, events)| && !WasCancelled(cfg, events, k)
    ensures Run(cfg, m, events + Idle(n)).Some? && d in Run(cfg, m, events + Idle(n)).value.done
    ensures var t := Accepted(cfg, events)[k];
      && TicketOf(d) == t && d.status == Finished
      && t.prompt != [] && d.output == Continue(m, t.prompt, t.maxTokens, t.ignoreEos)
  {
    ProgressiveParts(cfg);
    var all := events + Idle(n);
    assert Cancel(k) !in Idle(n);
    hide *;
    QuietTail(cfg, events, Idle(n), k);
    AllowedIsClean(cfg, m, all);
    Drains(cfg, m, events, n);
    RunIsSteady(cfg, m, events);
    RunTicks(cfg, m, events, n);
    d := Present(cfg, m, all, k);
    DoneTicket(cfg, m, all, d);
    Served(cfg, m, all, d);
  }
}
