/** When scheduling, paging and caching are invisible: the exact condition on the engine's modes. */
module Equivalence {
  import opened Decoding
  import opened Requests
  import opened Scheduling
  import opened Serving
  import opened Safety
  import opened Runs
  import opened StaleStart

  /** The run does not raise, and what each request has generated is what plain one-request decoding gives. */
  ghost predicate Equivalent(cfg: Config, m: Model, events: seq<Event>) {
    cfg.bs > 0 && Run(cfg, m, events).Some? &&
    var e := Run(cfg, m, events).value;
    forall r :: r in Queued(e) || r in e.done ==>
      && r.prompt != [] && r.output <= Reference(m, r)
      && (r.status == Finished ==> r.output == Reference(m, r))
  }

  lemma CleanIsEquivalent(cfg: Config, m: Model, events: seq<Event>)
    requires cfg.bs > 0 && CleanRun(cfg, m, events)
    ensures Equivalent(cfg, m, events)
  {
    RunKeeps(cfg, m, events);
    hide Safe, Settled, Run, CleanRun, Reference, Queued;
    var e := Run(cfg, m, events).value;
    forall r | r in Queued(e) || r in e.done
      ensures r.prompt != [] && r.output <= Reference(m, r)
      ensures r.status == Finished ==> r.output == Reference(m, r)
    {
      OutputEquivalence(cfg, m, events, r);
    }
  }

  lemma StoryIsNot()
    ensures !Equivalent(WHOLE_PROMPTS, ECHO, STORY)
  {
    hide Run, Reference;
    var e, r := WrongOutput();
  }

  /**
   The exact condition: every run of every engine with these modes is output-equivalent
   if and only if prefills may be chunked or there is no prefix cache.
   */
  lemma EquivalentExactlyWhen(chunked: bool, caching: bool)
    ensures (forall cfg: Config, m: Model, events: seq<Event> ::
      cfg.bs > 0 && cfg.chunked == chunked && cfg.caching == caching ==> Equivalent(cfg, m, events))
      <==> chunked || !caching
  {
    hide Equivalent, CleanRun;
    if chunked || !caching {
      forall cfg: Config, m: Model, events: seq<Event> | cfg.bs > 0 && cfg.chunked == chunked && cfg.caching == caching
        ensures Equivalent(cfg, m, events)
      {
        AllowedIsClean(cfg, m, events);
        CleanIsEquivalent(cfg, m, events);
      }
    } else {
      StoryIsNot();
      assert WHOLE_PROMPTS.bs > 0 && WHOLE_PROMPTS.chunked == chunked && WHOLE_PROMPTS.caching == caching;
    }
  }
}
