/** What a request has generated is never lost or changed, whatever happens to it later. */
module Outputs {
  import opened Decoding
  import opened Requests
  import opened Scheduling
  import opened Serving
  import opened Conservation
  import opened Batch

  lemma NextCarries(cfg: Config, m: Model, e: State, ev: Event)
    requires cfg.bs > 0 && Next(cfg, m, e, ev).Some?
    ensures Carries(e, Next(cfg, m, e, ev).value)
  {
    hide Step, Abort, Carries, Bag;
    match ev
    case Add(prompt, maxTokens, ignoreEos) =>
      SubmitCarries(cfg, e, prompt, maxTokens, ignoreEos);
    case Cancel(id) =>
      AbortConserves(cfg, e, id);
    case Tick =>
      StepConserves(cfg, m, e);
  }

  lemma SubmitCarries(cfg: Config, e: State, prompt: seq<Token>, maxTokens: int, ignoreEos: bool)
    ensures Carries(e, Submit(cfg, e, prompt, maxTokens, ignoreEos))
  {
    hide Acceptable;
    var e' := Submit(cfg, e, prompt, maxTokens, ignoreEos);
    InEveryone(e);
    InEveryone(e');
    hide Everyone;
    forall r | r in Everyone(e)
      ensures exists r' :: r' in Everyone(e') && Extends(r, r')
    {
      assert r in Everyone(e') && Extends(r, r);
    }
  }

  lemma {:induction false} RunCarries(cfg: Config, m: Model, events: seq<Event>, more: seq<Event>)
    requires cfg.bs > 0 && Run(cfg, m, events + more).Some?
    ensures Run(cfg, m, events).Some?
    ensures Carries(Run(cfg, m, events).value, Run(cfg, m, events + more).value)
    decreases |more|
  {
    hide Next, Carries, Init;
    var all := events + more;
    if more == [] {
      assert all == events;
      CarriesSame(Run(cfg, m, events).value, Run(cfg, m, events).value);
    } else {
      assert all[..|all| - 1] == events + more[..|more| - 1];
      RunCarries(cfg, m, events, more[..|more| - 1]);
      var e := Run(cfg, m, events + more[..|more| - 1]).value;
      NextCarries(cfg, m, e, all[|all| - 1]);
      CarriesTrans(Run(cfg, m, events).value, e, Run(cfg, m, all).value);
    }
  }

  // ---- one record for each id

  lemma TicketsOfAll(e: State)
    ensures Bag(e) == multiset(Tickets(Everyone(e)))
  {
    TicketsConcat(e.running, e.waiting);
    TicketsConcat(e.running + e.waiting, e.done);
    hide Tickets;
  }

  lemma Twice<T>(s: seq<T>, i: nat, j: nat)
    requires i < j < |s| && s[i] == s[j]
    ensures multiset(s)[s[i]] >= 2
  {
    assert s == s[..j] + [s[j]] + s[j + 1..];
    assert s[i] in s[..j];
  }

  lemma OnePlace(all: seq<Req>, ts: seq<Ticket>, i: nat, j: nat)
    requires multiset(Tickets(all)) == multiset(ts) && forall k :: 0 <= k < |ts| ==> ts[k].id == k
    requires i < j < |all|
    ensures all[i].id != all[j].id
  {
    var bag := Tickets(all);
    assert bag[i] in multiset(ts) && bag[j] in multiset(ts);
    CountOnce(ts, bag[i]);
    if all[i].id == all[j].id {
      assert bag[i] == ts[all[i].id] == bag[j];
      Twice(bag, i, j);
    }
  }

  lemma OneRecord(cfg: Config, m: Model, events: seq<Event>, r: Req, r': Req)
    requires cfg.bs > 0 && Run(cfg, m, events).Some? && r.id == r'.id
    requires r in Everyone(Run(cfg, m, events).value) && r' in Everyone(Run(cfg, m, events).value)
    ensures r == r'
  {
    hide *;
    RequestsConserved(cfg, m, events);
    Numbered(cfg, events);
    TicketsOfAll(Run(cfg, m, events).value);
    var all, ts := Everyone(Run(cfg, m, events).value), Accepted(cfg, events);
    var i :| 0 <= i < |all| && all[i] == r;
    var j :| 0 <= j < |all| && all[j] == r';
    if i < j {
      OnePlace(all, ts, i, j);
    } else if j < i {
      OnePlace(all, ts, j, i);
    }
  }

  /**
   A request, found by its id, in a later state: it is there, it is the same submission,
   and what it had generated is a prefix of what it has generated now. Preemption,
   roll-back, a cache hit, a cancellation, retirement take nothing back.
   */
  lemma OutputsOnlyGrow(cfg: Config, m: Model, events: seq<Event>, more: seq<Event>, r: Req) returns (r': Req)
    requires cfg.bs > 0 && Run(cfg, m, events + more).Some?
    requires Run(cfg, m, events).Some? && r in Everyone(Run(cfg, m, events).value)
    ensures var e' := Run(cfg, m, events + more).value;
      && (forall x :: x in Everyone(e') && x.id == r.id <==> x == r')
      && r'.prompt == r.prompt && r'.maxTokens == r.maxTokens && r'.ignoreEos == r.ignoreEos
      && |r.output| <= |r'.output| && r'.output[..|r.output|] == r.output
  {
    RunCarries(cfg, m, events, more);
    var e' := Run(cfg, m, events + more).value;
    hide Run, Everyone;
    r' :| r' in Everyone(e') && Extends(r, r');
    forall x | x in Everyone(e') && x.id == r.id
      ensures x == r'
    {
      OneRecord(cfg, m, events + more, x, r');
    }
  }
}
