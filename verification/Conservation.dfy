/**
 No request is lost, duplicated or altered: in every run, whatever the
 configuration, the queues and the finished list together hold exactly the
 accepted submissions, with their prompts and limits.
 */
module Conservation {
  import opened Blocks
  import opened Decoding
  import opened Options
  import opened Radix
  import opened Requests
  import opened Scheduling
  import opened Serving

  /** What a client submitted. */
  datatype Ticket = Ticket(id: nat, prompt: seq<Token>, maxTokens: nat, ignoreEos: bool)

  function TicketOf(r: Req): Ticket { Ticket(r.id, r.prompt, r.maxTokens, r.ignoreEos) }

  function Tickets(q: seq<Req>): (ts: seq<Ticket>)
    ensures |ts| == |q|
    ensures forall i :: 0 <= i < |q| ==> ts[i] == TicketOf(q[i])
  {
    seq(|q|, i requires 0 <= i < |q| => TicketOf(q[i]))
  }

  function Bag(e: State): multiset<Ticket> {
    multiset(Tickets(e.running)) + multiset(Tickets(e.waiting)) + multiset(Tickets(e.done))
  }

  /** Whoever was ever submitted: the queues and the history. */
  function Everyone(e: State): seq<Req> { e.running + e.waiting + e.done }

  /** The same submission, with no generated token lost or changed. */
  ghost predicate Extends(r: Req, r': Req) { TicketOf(r') == TicketOf(r) && r.output <= r'.output }

  ghost predicate Carries(e: State, e': State) {
    forall r :: r in Everyone(e) ==> exists r' :: r' in Everyone(e') && Extends(r, r')
  }

  /**
   Same submissions before and after, nothing finished is forgotten; without a prefix cache its trie
   stays as it is.
   */
  ghost predicate Conserves(cfg: Config, e: State, e': State) {
    && Bag(e') == Bag(e) && e'.nextId == e.nextId && e.done <= e'.done
    && (!cfg.caching ==> e'.tree == e.tree) && Carries(e, e')
  }

  // ---- what a request has generated stays

  lemma CarriesTrans(e: State, e1: State, e2: State)
    requires Carries(e, e1) && Carries(e1, e2)
    ensures Carries(e, e2)
  {
    hide Everyone, Extends;
    forall r | r in Everyone(e)
      ensures exists r' :: r' in Everyone(e2) && Extends(r, r')
    {
      var r1 :| r1 in Everyone(e1) && Extends(r, r1);
      var r2 :| r2 in Everyone(e2) && Extends(r1, r2);
      ExtendsTrans(r, r1, r2);
    }
  }

  lemma ExtendsTrans(r: Req, r1: Req, r2: Req)
    requires Extends(r, r1) && Extends(r1, r2)
    ensures Extends(r, r2)
  {
  }

  /** Everybody stays but one, who is replaced. */
  lemma CarriesBut(e: State, e': State, r: Req, r': Req)
    requires r' in Everyone(e') && Extends(r, r')
    requires forall x :: x in Everyone(e) && x != r ==> x in Everyone(e')
    ensures Carries(e, e')
  {
    hide Everyone;
    forall x | x in Everyone(e)
      ensures exists x' :: x' in Everyone(e') && Extends(x, x')
    {
      if x != r {
        assert Extends(x, x);
      }
    }
  }

  lemma CarriesSame(e: State, e': State)
    requires Everyone(e') == Everyone(e)
    ensures Carries(e, e')
  {
    hide Everyone;
    forall r | r in Everyone(e)
      ensures r in Everyone(e') && Extends(r, r)
    {
    }
  }

  lemma InEveryone(e: State)
    ensures forall r :: r in Everyone(e) <==> r in e.running || r in e.waiting || r in e.done
  {
  }

  lemma InWithout(q: seq<Req>, i: nat)
    requires i < |q|
    ensures forall r :: r in q && r != q[i] ==> r in Without(q, i)
  {
    forall r | r in q && r != q[i]
      ensures r in Without(q, i)
    {
      var k :| 0 <= k < |q| && q[k] == r;
      assert Without(q, i)[if k < i then k else k - 1] == r;
    }
  }

  // ---- sequences of tickets

  lemma TicketsConcat(a: seq<Req>, b: seq<Req>)
    ensures Tickets(a + b) == Tickets(a) + Tickets(b)
  {
  }

  /** Taking one record out of a queue takes its ticket out of the bag. */
  lemma TicketsWithout(q: seq<Req>, i: nat)
    requires i < |q|
    ensures multiset(Tickets(q)) == multiset(Tickets(Without(q, i))) + multiset{TicketOf(q[i])}
  {
    var ts := Tickets(q);
    assert ts == ts[..i] + ([ts[i]] + ts[i + 1..]);
    assert Tickets(Without(q, i)) == ts[..i] + ts[i + 1..];
  }

  lemma TicketsCons(r: Req, q: seq<Req>)
    ensures multiset(Tickets([r] + q)) == multiset(Tickets(q)) + multiset{TicketOf(r)}
  {
    assert Tickets([r] + q) == [TicketOf(r)] + Tickets(q);
  }

  lemma TicketsSnoc(q: seq<Req>, r: Req)
    ensures multiset(Tickets(q + [r])) == multiset(Tickets(q)) + multiset{TicketOf(r)}
  {
    assert Tickets(q + [r]) == Tickets(q) + [TicketOf(r)];
  }

  lemma TicketsSame(q: seq<Req>, i: nat, r': Req)
    requires i < |q| && TicketOf(r') == TicketOf(q[i])
    ensures Tickets(q[i := r']) == Tickets(q)
  {
  }

  lemma ConservesTrans(cfg: Config, e: State, e1: State, e2: State)
    requires Conserves(cfg, e, e1) && Conserves(cfg, e1, e2)
    ensures Conserves(cfg, e, e2)
  {
    CarriesTrans(e, e1, e2);
    hide Bag, Carries;
  }

  lemma ConservesSelf(cfg: Config, e: State)
    ensures Conserves(cfg, e, e)
  {
    CarriesSame(e, e);
    hide Carries;
  }

  // ---- scheduling

  lemma PreemptConserves(cfg: Config, e: State, i: nat)
    requires i < |e.running|
    ensures Conserves(cfg, e, Preempt(e, i))
  {
    hide Tickets, Without, FreeMany;
    var r := e.running[i];
    TicketsWithout(e.running, i);
    TicketsCons(r.Reset(), e.waiting);
    assert TicketOf(r.Reset()) == TicketOf(r);
    InWithout(e.running, i);
    InEveryone(e);
    InEveryone(Preempt(e, i));
    CarriesBut(e, Preempt(e, i), r, r.Reset());
  }

  lemma {:induction false} PreemptUntilConserves(cfg: Config, e: State, needed: nat, protected: set<nat>)
    ensures Conserves(cfg, e, PreemptUntil(cfg, e, needed, protected))
    decreases |e.running|
  {
    hide Conserves, Preempt;
    ConservesSelf(cfg, e);
    if FreeBlocks(cfg, e) < needed {
      match NewestUnprotected(e.running, protected)
      case None =>
      case Some(i) =>
        PreemptConserves(cfg, e, i);
        assert |Preempt(e, i).running| < |e.running| by { PreemptShrinks(e, i); }
        PreemptUntilConserves(cfg, Preempt(e, i), needed, protected);
        ConservesTrans(cfg, e, Preempt(e, i), PreemptUntil(cfg, e, needed, protected));
    }
  }

  lemma PreemptShrinks(e: State, i: nat)
    requires i < |e.running|
    ensures |Preempt(e, i).running| < |e.running|
  {
  }

  lemma ReclaimConserves(cfg: Config, e: State, k: nat)
    requires cfg.caching
    ensures Conserves(cfg, e, Reclaim(e, k))
  {
    hide Evict;
    CarriesSame(e, Reclaim(e, k));
  }

  lemma MakeRoomConserves(cfg: Config, e: State, needed: nat, protected: set<nat>)
    ensures Conserves(cfg, e, MakeRoom(cfg, e, needed, protected))
  {
    hide Conserves, Reclaim, PreemptUntil;
    ConservesSelf(cfg, e);
    if cfg.caching && needed - FreeBlocks(cfg, e) > 0 {
      ReclaimConserves(cfg, e, needed - FreeBlocks(cfg, e));
    }
    var e1 := ReclaimFor(cfg, e, needed);
    PreemptUntilConserves(cfg, e1, needed, protected);
    ConservesTrans(cfg, e, e1, PreemptUntil(cfg, e1, needed, protected));
  }

  lemma {:induction false} DecodePhaseConserves(cfg: Config, w: Work, ids: seq<nat>)
    requires cfg.bs > 0
    ensures Conserves(cfg, w.st, DecodePhase(cfg, w, ids).st)
    decreases |ids|
  {
    hide Conserves, DecodeOne;
    ConservesSelf(cfg, w.st);
    if ids != [] && w.budget > 0 {
      var w1 := DecodeOne(cfg, w, ids[0]);
      DecodeOneConserves(cfg, w, ids[0]);
      DecodePhaseConserves(cfg, w1, ids[1..]);
      ConservesTrans(cfg, w.st, w1.st, DecodePhase(cfg, w1, ids[1..]).st);
    }
  }

  lemma DecodeOneConserves(cfg: Config, w: Work, id: nat)
    requires cfg.bs > 0
    ensures Conserves(cfg, w.st, DecodeOne(cfg, w, id).st)
  {
    hide Conserves, MakeRoom, Need;
    ConservesSelf(cfg, w.st);
    var i := Find(w.st.running, id);
    if i < |w.st.running| {
      var r := w.st.running[i];
      MakeRoomConserves(cfg, w.st, Need(cfg, r, r.computed + 1) + w.reserved, w.scheduled + {id});
    }
  }

  lemma {:induction false} PrefillPhaseState(cfg: Config, w: Work, i: nat)
    requires cfg.bs > 0 && i <= |w.st.running|
    ensures PrefillPhase(cfg, w, i).st == w.st
    decreases |w.st.running| - i
  {
    if i < |w.st.running| && w.budget > 0 {
      PrefillPhaseState(cfg, PrefillOne(cfg, w, w.st.running[i]), i + 1);
    }
  }

  lemma AttachConserves(cfg: Config, e: State)
    requires cfg.bs > 0 && e.waiting != []
    ensures Conserves(cfg, e, Attach(cfg, e)) && Attach(cfg, e).waiting != []
  {
    hide MatchBlocks, MatchTree, IncrefMany, Tickets;
    var e' := Attach(cfg, e);
    assert e'.waiting == e.waiting[0 := e'.waiting[0]];
    TicketsSame(e.waiting, 0, e'.waiting[0]);
    InEveryone(e);
    InEveryone(e');
    assert e'.waiting[0] in e'.waiting;
    CarriesBut(e, e', e.waiting[0], e'.waiting[0]);
  }

  lemma AdmitConserves(cfg: Config, e: State)
    requires e.waiting != []
    ensures Conserves(cfg, e, Admit(e))
  {
    hide Tickets;
    var r := e.waiting[0];
    assert e.waiting == [r] + e.waiting[1..];
    TicketsCons(r, e.waiting[1..]);
    TicketsSnoc(e.running, r.(status := Prefill));
    assert TicketOf(r.(status := Prefill)) == TicketOf(r);
    AdmitCarries(e);
    hide Carries;
  }

  lemma AdmitCarries(e: State)
    requires e.waiting != []
    ensures Carries(e, Admit(e))
  {
    hide Everyone, Carries;
    var e', r' := Admit(e), e.waiting[0].(status := Prefill);
    InEveryone(e);
    InEveryone(e');
    assert e'.running[|e.running|] == r' && e.waiting == [e.waiting[0]] + e.waiting[1..];
    CarriesBut(e, e', e.waiting[0], r');
  }

  lemma RollBackConserves(cfg: Config, e: State)
    requires e.running != []
    ensures Conserves(cfg, e, RollBack(e))
  {
    hide Tickets, FreeMany;
    var last := |e.running| - 1;
    var r := e.running[last];
    assert e.running == e.running[..last] + [r];
    TicketsSnoc(e.running[..last], r);
    TicketsCons(r.(kv := None, status := Waiting), e.waiting);
    assert TicketOf(r.(kv := None, status := Waiting)) == TicketOf(r);
    RollBackCarries(e);
    hide Carries;
  }

  lemma RollBackCarries(e: State)
    requires e.running != []
    ensures Carries(e, RollBack(e))
  {
    hide FreeMany, Everyone, Carries;
    var last, e' := |e.running| - 1, RollBack(e);
    var r' := e.running[last].(kv := None, status := Waiting);
    InEveryone(e);
    InEveryone(e');
    assert e'.waiting[0] == r' && e.running == e.running[..last] + [e.running[last]];
    CarriesBut(e, e', e.running[last], r');
  }

  lemma {:induction false} AdmitPhaseConserves(cfg: Config, w: Work)
    requires cfg.bs > 0
    ensures Conserves(cfg, w.st, AdmitPhase(cfg, w).st)
    decreases |w.st.waiting|
  {
    hide Conserves, Attach, RollBack, Need, MakeChunk;
    ConservesSelf(cfg, w.st);
    if w.st.waiting != [] && w.budget > 0 && |w.st.running| < cfg.maxSeqs {
      var e := Attach(cfg, w.st);
      AttachConserves(cfg, w.st);
      AttachSize(cfg, w.st);
      if Need(cfg, e.waiting[0], e.waiting[0].computed + 1) <= Available(cfg, w.(st := e)) {
        var w2 := w.(st := Admit(e));
        AdmitConserves(cfg, e);
        ConservesTrans(cfg, w.st, e, w2.st);
        var r := w2.st.running[|w2.st.running| - 1];
        match MakeChunk(cfg, r, w2.budget, Available(cfg, w2))
        case None =>
          RollBackConserves(cfg, w2.st);
          ConservesTrans(cfg, w.st, w2.st, RollBack(w2.st));
        case Some(c) =>
          var w3 := TakeChunk(cfg, w2, r, c);
          AdmitPhaseConserves(cfg, w3);
          ConservesTrans(cfg, w.st, w2.st, AdmitPhase(cfg, w3).st);
      }
    }
  }

  lemma AttachSize(cfg: Config, e: State)
    requires cfg.bs > 0 && e.waiting != []
    ensures |Attach(cfg, e).waiting| == |e.waiting|
  {
    hide MatchBlocks, MatchTree, IncrefMany;
  }

  lemma StallConserves(cfg: Config, w: Work)
    requires cfg.bs > 0
    ensures Conserves(cfg, w.st, BreakStall(cfg, w).st)
    ensures Conserves(cfg, w.st, ForceHead(cfg, w).st)
  {
    hide Conserves, Reclaim, MakeRoom, Need;
    ConservesSelf(cfg, w.st);
    if w.st.waiting != [] && cfg.caching {
      var short := Numbers.CeilDiv(w.st.waiting[0].computed + 1, cfg.bs) - |w.st.pool.free|;
      ReclaimConserves(cfg, w.st, if short > 1 then short else 1);
    }
    if w.st.running != [] {
      var head := w.st.running[0];
      MakeRoomConserves(cfg, w.st, Need(cfg, head, head.computed + 1), {head.id});
    }
  }

  lemma ScheduleConserves(cfg: Config, e: State)
    requires cfg.bs > 0
    ensures Conserves(cfg, e, Schedule(cfg, e).st)
  {
    hide Conserves, DecodePhase, PrefillPhase, AdmitPhase, BreakStall, ForceHead;
    var w0 := Work(e, cfg.budget, 0, {}, [], []);
    var w1 := DecodePhase(cfg, w0, Ids(e.running));
    DecodePhaseConserves(cfg, w0, Ids(e.running));
    PrefillPhaseState(cfg, w1, 0);
    var w2 := PrefillPhase(cfg, w1, 0);
    AdmitPhaseConserves(cfg, w2);
    var w3 := AdmitPhase(cfg, w2);
    StallConserves(cfg, w3);
    StallConserves(cfg, BreakStall(cfg, w3));
    ConservesTrans(cfg, e, w1.st, w3.st);
    ConservesTrans(cfg, e, w3.st, BreakStall(cfg, w3).st);
    ConservesTrans(cfg, e, BreakStall(cfg, w3).st, Schedule(cfg, e).st);
  }

  // ---- execution

  lemma CommitConserves(cfg: Config, e: State, i: nat, p: Pass, r': Req)
    requires i < |e.running| && Extends(e.running[i], r')
    ensures Conserves(cfg, e, Commit(e, i, p, r'))
  {
    hide Tickets;
    TicketsSame(e.running, i, r');
    InEveryone(e);
    var e' := Commit(e, i, p, r');
    InEveryone(e');
    assert e'.running[i] == r';
    forall x | x in e.running && x != e.running[i]
      ensures x in e'.running
    {
      var k :| 0 <= k < |e.running| && e.running[k] == x;
      assert e'.running[k] == x;
    }
    CarriesBut(e, e', e.running[i], r');
  }

  lemma ExecChunkConserves(cfg: Config, m: Model, e: State, c: Slice)
    requires ExecChunk(cfg, m, e, c).Some?
    ensures Conserves(cfg, e, ExecChunk(cfg, m, e, c).value)
  {
    hide Conserves, Forward, Commit;
    var i := Find(e.running, c.id);
    var r := e.running[i];
    var f := Forward(cfg, m, e, r, c.start, r.PrefillTokens()[c.start..c.start + c.count]).value;
    var r1 := Advance(r, f, c.start + c.count);
    var r2 := if c.final then r1.(status := Running) else r1;
    var r3 := if c.final && r.output == [] then r2.Emit(f.token) else r2;
    assert Extends(r, r3);
    CommitConserves(cfg, e, i, f, r3);
  }

  lemma ExecDecodeConserves(cfg: Config, m: Model, e: State, id: nat)
    requires ExecDecode(cfg, m, e, id).Some?
    ensures Conserves(cfg, e, ExecDecode(cfg, m, e, id).value)
  {
    hide Conserves, Forward, Commit;
    ConservesSelf(cfg, e);
    var i := Find(e.running, id);
    if i < |e.running| && e.running[i].kv.Some? && e.running[i].status == Running {
      var r := e.running[i];
      var f := Forward(cfg, m, e, r, r.computed, [r.LastToken()]).value;
      CommitConserves(cfg, e, i, f, Advance(r, f, r.computed + 1).Emit(f.token));
    }
  }

  lemma {:induction false} ExecChunksConserve(cfg: Config, m: Model, e: State, cs: seq<Slice>)
    requires ExecChunks(cfg, m, e, cs).Some?
    ensures Conserves(cfg, e, ExecChunks(cfg, m, e, cs).value)
    decreases |cs|
  {
    hide Conserves, ExecChunk;
    ConservesSelf(cfg, e);
    if cs != [] {
      var e1 := ExecChunk(cfg, m, e, cs[0]).value;
      ExecChunkConserves(cfg, m, e, cs[0]);
      ExecChunksConserve(cfg, m, e1, cs[1..]);
      ConservesTrans(cfg, e, e1, ExecChunks(cfg, m, e, cs).value);
    }
  }

  lemma {:induction false} ExecDecodesConserve(cfg: Config, m: Model, e: State, ids: seq<nat>)
    requires ExecDecodes(cfg, m, e, ids).Some?
    ensures Conserves(cfg, e, ExecDecodes(cfg, m, e, ids).value)
    decreases |ids|
  {
    hide Conserves, ExecDecode;
    ConservesSelf(cfg, e);
    if ids != [] {
      var e1 := ExecDecode(cfg, m, e, ids[0]).value;
      ExecDecodeConserves(cfg, m, e, ids[0]);
      ExecDecodesConserve(cfg, m, e1, ids[1..]);
      ConservesTrans(cfg, e, e1, ExecDecodes(cfg, m, e, ids).value);
    }
  }

  // ---- leaving

  lemma DropConserves(cfg: Config, e: State, i: nat, r': Req)
    requires i < |e.running| && Extends(e.running[i], r')
    ensures Conserves(cfg, e, Drop(e, i, r'))
  {
    hide Tickets, Without, FreeMany;
    TicketsWithout(e.running, i);
    TicketsSnoc(e.done, r');
    InWithout(e.running, i);
    InEveryone(e);
    InEveryone(Drop(e, i, r'));
    CarriesBut(e, Drop(e, i, r'), e.running[i], r');
  }

  lemma RetireConserves(cfg: Config, e: State, i: nat)
    requires cfg.bs > 0 && i < |e.running|
    ensures Conserves(cfg, e, Retire(cfg, e, i)) && |Retire(cfg, e, i).running| == |e.running| - 1
  {
    var r := e.running[i];
    var e1 := CommitPrefix(cfg, e, r);
    CommitKeepsQueues(cfg, e, r);
    CarriesSame(e, e1);
    assert Conserves(cfg, e, e1) by { hide Carries; }
    hide Conserves, CommitPrefix, FreeMany, Carries;
    DropConserves(cfg, e1, i, r.(kv := None));
    ConservesTrans(cfg, e, e1, Retire(cfg, e, i));
  }

  lemma CommitKeepsQueues(cfg: Config, e: State, r: Req)
    requires cfg.bs > 0
    ensures var e1 := CommitPrefix(cfg, e, r);
      && e1.running == e.running && e1.waiting == e.waiting && e1.done == e.done && e1.nextId == e.nextId
      && (!cfg.caching ==> e1 == e)
  {
    hide Insert, FullBlocks;
  }

  lemma {:induction false} RetireFromConserves(cfg: Config, e: State, i: nat)
    requires cfg.bs > 0 && i <= |e.running|
    ensures Conserves(cfg, e, RetireFrom(cfg, e, i))
    decreases |e.running| - i
  {
    hide Conserves, Retire;
    ConservesSelf(cfg, e);
    if i < |e.running| {
      if e.running[i].IsFinished() {
        RetireConserves(cfg, e, i);
        RetireFromConserves(cfg, Retire(cfg, e, i), i);
        ConservesTrans(cfg, e, Retire(cfg, e, i), RetireFrom(cfg, e, i));
      } else {
        RetireFromConserves(cfg, e, i + 1);
      }
    }
  }

  lemma AbortConserves(cfg: Config, e: State, id: nat)
    ensures Conserves(cfg, e, Abort(e, id))
  {
    hide Tickets, Without, FreeMany;
    var i, j := Find(e.waiting, id), Find(e.running, id);
    if i < |e.waiting| {
      var r := e.waiting[i];
      TicketsWithout(e.waiting, i);
      TicketsSnoc(e.done, r.(kv := None, status := Aborted));
      var r' := r.(kv := None, status := Aborted);
      assert TicketOf(r') == TicketOf(r);
      InWithout(e.waiting, i);
      InEveryone(e);
      InEveryone(Abort(e, id));
      CarriesBut(e, Abort(e, id), r, r');
    } else if j < |e.running| {
      DropConserves(cfg, e, j, e.running[j].(kv := None, status := Aborted));
    } else {
      CarriesSame(e, e);
    }
  }

  lemma StepConserves(cfg: Config, m: Model, e: State)
    requires cfg.bs > 0 && Step(cfg, m, e).Some?
    ensures Conserves(cfg, e, Step(cfg, m, e).value)
  {
    hide Conserves, Schedule, ExecChunks, ExecDecodes, RetireFrom;
    var w := Schedule(cfg, e);
    ScheduleConserves(cfg, e);
    if !Empty(w) {
      ExecChunksConserve(cfg, m, w.st, w.chunks);
      var e1 := ExecChunks(cfg, m, w.st, w.chunks).value;
      ExecDecodesConserve(cfg, m, e1, w.decodes);
      var e2 := ExecDecodes(cfg, m, e1, w.decodes).value;
      RetireFromConserves(cfg, e2, 0);
      ConservesTrans(cfg, e, w.st, e1);
      ConservesTrans(cfg, e, e1, e2);
      ConservesTrans(cfg, e, e2, RetireFrom(cfg, e2, 0));
    }
  }

  // ---- runs

  /** The accepted submissions of a history, numbered in order of arrival. */
  function Accepted(cfg: Config, events: seq<Event>): seq<Ticket>
    decreases |events|
  {
    if events == [] then []
    else
      var before, last := Accepted(cfg, events[..|events| - 1]), events[|events| - 1];
      if last.Add? && Acceptable(cfg, last.prompt, last.maxTokens)
      then before + [Ticket(|before|, last.prompt, last.maxTokens, last.ignoreEos)]
      else before
  }

  lemma SubmitAdds(cfg: Config, e: State, prompt: seq<Token>, maxTokens: int, ignoreEos: bool)
    ensures var e' := Submit(cfg, e, prompt, maxTokens, ignoreEos);
      if Acceptable(cfg, prompt, maxTokens)
      then Bag(e') == Bag(e) + multiset{Ticket(e.nextId, prompt, maxTokens, ignoreEos)} && e'.nextId == e.nextId + 1
        && e'.tree == e.tree
      else e' == e
  {
    hide Tickets, Acceptable;
    if Acceptable(cfg, prompt, maxTokens) {
      assert maxTokens > 0 by { Limits(cfg, prompt, maxTokens); }
      TicketsSnoc(e.waiting, NewRequest(e.nextId, prompt, maxTokens, ignoreEos));
    }
  }

  lemma Limits(cfg: Config, prompt: seq<Token>, maxTokens: int)
    requires Acceptable(cfg, prompt, maxTokens)
    ensures maxTokens > 0
  {
  }

  /** In every run the engine holds exactly the accepted submissions, each once. */
  lemma {:induction false} RequestsConserved(cfg: Config, m: Model, events: seq<Event>)
    requires cfg.bs > 0 && Run(cfg, m, events).Some?
    ensures var e := Run(cfg, m, events).value;
      && Bag(e) == multiset(Accepted(cfg, events)) && e.nextId == |Accepted(cfg, events)|
      && (!cfg.caching ==> e.tree == EmptyTree)
    decreases |events|
  {
    hide Bag, Carries, Step, Abort, Submit, Acceptable, Init;
    if events == [] {
      StartEmpty(cfg, m);
    } else {
      var before, last := events[..|events| - 1], events[|events| - 1];
      RequestsConserved(cfg, m, before);
      var e := Run(cfg, m, before).value;
      match last
      case Add(prompt, maxTokens, ignoreEos) =>
        SubmitAdds(cfg, e, prompt, maxTokens, ignoreEos);
      case Cancel(id) =>
        AbortConserves(cfg, e, id);
      case Tick =>
        StepConserves(cfg, m, e);
    }
  }

  lemma StartEmpty(cfg: Config, m: Model)
    ensures Bag(Init(cfg, m)) == multiset{} && Init(cfg, m).nextId == 0 && Init(cfg, m).tree == EmptyTree
  {
    assert Tickets([]) == [];
  }
}
