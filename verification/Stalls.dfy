/**
 When the oldest request advances, with the prefix cache on or off. The code promises
 that it always does. It does not: a request in its prefill that has no free block left
 is helped by no branch, and neither is a decoding one whose missing blocks are shared
 with requests that wait. These are the only ways for a running one to stand still, and
 both are for good.
 */
module Stalls {
  import opened Numbers
  import opened Blocks
  import opened Paging
  import opened Decoding
  import opened Radix
  import opened RadixLaws
  import opened Requests
  import opened Scheduling
  import opened Safety
  import opened SafetyMoves
  import opened SafetyAdmission
  import opened SafetyPlan
  import opened SafetySchedule
  import opened Runs
  import opened Conservation
  import opened Fairness
  import opened Progress

  /** Chunked prefill, preemption, and a budget and a sequence limit that admit somebody. */
  ghost predicate Lively(cfg: Config) {
    cfg.bs > 0 && cfg.chunked && cfg.preemption && cfg.budget >= 1 && cfg.maxSeqs >= 1
  }

  lemma LivelyParts(cfg: Config)
    requires Lively(cfg)
    ensures Allowed(cfg) && cfg.bs > 0 && cfg.chunked && cfg.preemption && cfg.budget >= 1 && cfg.maxSeqs >= 1
  {
  }

  // ---- one more token

  /** The request's last block is full: its next token needs a new one. */
  predicate AtBoundary(cfg: Config, r: Req) { r.computed == |r.Table()| * cfg.bs }

  lemma BoundaryNeed(cfg: Config, r: Req)
    requires cfg.bs > 0 && PagedOk(cfg, r)
    ensures Need(cfg, r, r.computed + 1) == if AtBoundary(cfg, r) then 1 else 0
  {
    var n := |r.Table()|;
    assert (n + 1) * cfg.bs == n * cfg.bs + cfg.bs;
    assert (n - 1) * cfg.bs == n * cfg.bs - cfg.bs;
    CeilDivUnique(r.computed + 1, cfg.bs, if AtBoundary(cfg, r) then n + 1 else n);
  }

  /** A request in its prefill gets no slice exactly when it needs a block and none is offered. */
  lemma NoChunkExactly(cfg: Config, r: Req, budget: int, available: int)
    requires cfg.bs > 0 && cfg.chunked && budget > 0 && PagedOk(cfg, r) && r.computed < r.PrefillTarget()
    ensures MakeChunk(cfg, r, budget, available).None? <==> AtBoundary(cfg, r) && available <= 0
  {
    var n := |r.Table()|;
    var want := if r.RemainingPrefill() < budget then r.RemainingPrefill() else budget;
    var extra := if available > 0 then available else 0;
    assert (n + extra) * cfg.bs == n * cfg.bs + extra * cfg.bs;
    BoundaryNeed(cfg, r);
    CeilDivMono(r.computed + 1, r.computed + want, cfg.bs);
    if extra > 0 {
      MulMono(1, extra, cfg.bs);
    }
  }

  // ---- admission without memory

  /** The state after an admission phase that admits nobody. */
  function Attached(cfg: Config, e: State): State
    requires cfg.bs > 0
  {
    if e.waiting == [] || |e.running| >= cfg.maxSeqs then e else Attach(cfg, e)
  }

  lemma AttachedSafe(cfg: Config, m: Model, e: State)
    requires cfg.bs > 0 && Safe(cfg, m, e)
    ensures Safe(cfg, m, Attached(cfg, e)) && Attached(cfg, e).pool.free == e.pool.free
    ensures Attached(cfg, e).running == e.running
    ensures (Attached(cfg, e).waiting == [] <==> e.waiting == [])
  {
    hide Safe, Attach;
    if e.waiting != [] {
      AttachSafe(cfg, m, e);
      AttachRunning(cfg, e);
    }
  }

  /** With no block to offer nobody is admitted; only the head of the queue looks its prompt up. */
  lemma NobodyAdmitted(cfg: Config, m: Model, w: Work)
    requires cfg.bs > 0 && Safe(cfg, m, w.st) && w.budget > 0 && Available(cfg, w) <= 0
    ensures AdmitPhase(cfg, w) == w.(st := Attached(cfg, w.st))
  {
    hide Safe, Attach, MakeChunk, Need, WaitingOk;
    AttachedSafe(cfg, m, w.st);
    if w.st.waiting != [] && |w.st.running| < cfg.maxSeqs {
      var e := Attach(cfg, w.st);
      WaitingHead(cfg, m, e);
      AdmittedNeedsMemory(cfg, e.waiting[0]);
    }
  }

  // ---- blocks nobody can give up

  /** Nothing is free and nothing can be evicted exactly when every block is in some queued request's table. */
  lemma AllInUse(cfg: Config, m: Model, e: State)
    requires cfg.bs > 0 && Safe(cfg, m, e)
    ensures e.pool.free == [] && Unpinned(CacheOf(e)) == {} <==>
      forall b :: 0 <= b < cfg.numBlocks ==> b in Tables(Queued(e))
  {
    hide *;
    SafeMemoryOk(cfg, m, e);
    if e.pool.free == [] && Unpinned(CacheOf(e)) == {} {
      forall b | 0 <= b < cfg.numBlocks
        ensures b in Tables(Queued(e))
      {
        InUseHeld(cfg, e, b);
      }
    }
    if forall b :: 0 <= b < cfg.numBlocks ==> b in Tables(Queued(e)) {
      forall b | 0 <= b < cfg.numBlocks
        ensures b in Held(e)
      {
        TablesAreHeld(e, b);
      }
      NothingFree(cfg, e);
      NothingUnpinned(cfg, e);
    }
  }

  lemma TablesAreHeld(e: State, b: nat)
    requires b in Tables(Queued(e))
    ensures b in Held(e)
  {
  }

  lemma InUseHeld(cfg: Config, e: State, b: nat)
    requires MemoryOk(cfg, e) && b < cfg.numBlocks && e.pool.free == [] && Unpinned(CacheOf(e)) == {}
    ensures b in Tables(Queued(e))
  {
    hide TreeOk, Tables, Queued, Shaped;
    assert e.pool.ref[b] == Held(e)[b] && e.pool.ref[b] > 0;
    if b in NodeBlocks(e.tree.nodes) {
      var p :| p in e.tree.nodes && e.tree.nodes[p].block == b;
      assert p !in Unpinned(CacheOf(e));
    }
  }

  lemma FirstIsThere(q: seq<nat>)
    ensures q != [] ==> q[0] in q
  {
  }

  lemma NothingFree(cfg: Config, e: State)
    requires MemoryOk(cfg, e) && forall b :: 0 <= b < cfg.numBlocks ==> b in Held(e)
    ensures e.pool.free == []
  {
    hide TreeOk, Held, Shaped;
    forall b | 0 <= b < cfg.numBlocks
      ensures b !in e.pool.free
    {
      assert e.pool.ref[b] == Held(e)[b] && Held(e)[b] > 0;
    }
    FirstIsThere(e.pool.free);
  }

  lemma NothingUnpinned(cfg: Config, e: State)
    requires MemoryOk(cfg, e) && forall b :: 0 <= b < cfg.numBlocks ==> b in Tables(Queued(e))
    ensures Unpinned(CacheOf(e)) == {}
  {
    hide TreeOk, Tables, Queued, Shaped;
    forall p | p in e.tree.nodes
      ensures Pinned(CacheOf(e), p)
    {
      var b := e.tree.nodes[p].block;
      assert b in NodeBlocks(e.tree.nodes);
      assert b in Held(e);
      assert b in Tables(Queued(e)) && Held(e)[b] >= 2;
    }
  }

  // ---- who could make room

  function Resets(q: seq<Req>): (rs: seq<Req>)
    ensures |rs| == |q|
  {
    seq(|q|, i requires 0 <= i < |q| => q[i].Reset())
  }

  lemma OneMoreReset(q: seq<Req>, k: nat, rest: seq<Req>)
    requires k < |q|
    ensures var last := |q| - 1;
      && Resets(q[..last][k..]) + ([q[last].Reset()] + rest) == Resets(q[k..]) + rest
      && q[..last][..k] == q[..k]
  {
    var last := |q| - 1;
    assert q[k..] == q[..last][k..] + [q[last]];
    assert Resets(q[k..]) == Resets(q[..last][k..]) + [q[last].Reset()];
  }

  /** Only the oldest is spared: the others leave from the end, and wait in their order. */
  lemma {:induction false} PreemptRest(cfg: Config, e: State, needed: nat)
    requires e.running != [] && Distinct(e.running)
    ensures var e' := PreemptUntil(cfg, e, needed, {e.running[0].id});
      && 0 < |e'.running| <= |e.running| && e'.running == e.running[..|e'.running|]
      && e'.waiting == Resets(e.running[|e'.running|..]) + e.waiting
      && e'.tree == e.tree
      && (FreeBlocks(cfg, e') < needed ==> |e'.running| == 1)
    decreases |e.running|
  {
    var q := e.running;
    NewestIsLast(q, {q[0].id}, 1);
    if FreeBlocks(cfg, e) < needed && |q| > 1 {
      var last := |q| - 1;
      PreemptNewest(e);
      var e1 := Preempt(e, last);
      assert e1.waiting == [q[last].Reset()] + e.waiting && e1.tree == e.tree && e1.running == q[..last];
      assert PreemptUntil(cfg, e, needed, {q[0].id}) == PreemptUntil(cfg, e1, needed, {q[0].id});
      assert e1.running[0] == q[0] && Distinct(e1.running);
      hide *;
      PreemptRest(cfg, e1, needed);
      var k := |PreemptUntil(cfg, e1, needed, {q[0].id}).running|;
      OneMoreReset(q, k, e.waiting);
    } else {
      assert Resets(q[|q|..]) + e.waiting == e.waiting;
    }
  }

  lemma ResetTables(q: seq<Req>, rest: seq<Req>)
    ensures Tables(Resets(q) + rest) == Tables(rest)
  {
    EmptyTables(Resets(q));
    TablesConcat(Resets(q), rest);
  }

  /** Blocks held through the tree alone go when memory is short. */
  ghost function InUse(e: State): Tree { e.tree.(nodes := e.tree.nodes - Unpinned(CacheOf(e))) }

  lemma SameSet(vs: seq<Path>, u: set<Path>)
    requires |vs| == |u| && (forall i :: 0 <= i < |vs| ==> vs[i] in u)
    requires forall i, j :: 0 <= i < j < |vs| ==> vs[i] != vs[j]
    ensures Set(vs) == u
  {
    SetSize(vs);
    SubsetIs(Set(vs), u);
  }

  lemma SubsetIs(a: set<Path>, b: set<Path>)
    requires a <= b && |a| == |b|
    ensures a == b
  {
    assert b == a + (b - a);
    assert |b - a| == 0;
  }

  lemma {:induction false} SetSize(vs: seq<Path>)
    requires forall i, j :: 0 <= i < j < |vs| ==> vs[i] != vs[j]
    ensures |Set(vs)| == |vs|
    decreases |vs|
  {
    if vs == [] {
      assert Set(vs) == {};
    } else {
      var last := |vs| - 1;
      SetSize(vs[..last]);
      assert Set(vs) == Set(vs[..last]) + {vs[last]};
    }
  }

  /** When eviction does not make enough room, everything unpinned has gone. */
  lemma ReclaimedAll(cfg: Config, m: Model, e: State, needed: nat)
    requires cfg.bs > 0 && Safe(cfg, m, e) && (!cfg.caching ==> e.tree.nodes == map[])
    requires FreeBlocks(cfg, ReclaimFor(cfg, e, needed)) < needed
    ensures ReclaimFor(cfg, e, needed).tree.nodes == InUse(e).nodes
  {
    hide Safe, Reclaim, TreeOk, PinClosed, Unpinned;
    if cfg.caching {
      var k := needed - FreeBlocks(cfg, e);
      ReclaimIsExact(cfg, m, e, k);
      VictimCount(cfg, m, e, k);
      SameSet(Victims(CacheOf(e), k), Unpinned(CacheOf(e)));
    }
  }

  lemma VictimCount(cfg: Config, m: Model, e: State, k: nat)
    requires cfg.bs > 0 && Safe(cfg, m, e)
    ensures |Victims(CacheOf(e), k)| == RadixLaws.Min(k, |Unpinned(CacheOf(e))|)
  {
    hide TreeOk, PinClosed, Unpinned, Victims, ViewsOk, NodesOk, OutputsOk, IdsOk, Held, Shaped, FreeListOk, ShapesOk,
      OwnershipOk;
    PinsAreClosed(cfg, e);
    EvictExact(CacheOf(e), k);
  }

  // ---- what stays out of reach

  /** The blocks that the next in line would adopt, from what is in use already, when it looks its prompt up. */
  ghost function Lookup(cfg: Config, e: State): seq<nat>
    requires cfg.bs > 0
  {
    if !cfg.caching || cfg.maxSeqs <= 1 then []
    else if |e.running| > 1 then MatchBlocks(cfg.bs, InUse(e), e.running[1].prompt)
    else if e.waiting != [] && e.waiting[0].kv.None? then MatchBlocks(cfg.bs, InUse(e), e.waiting[0].prompt)
    else []
  }

  /** Block b stays, whoever else is preempted: it is the oldest request's, or someone's who waits. */
  ghost predicate Occupied(cfg: Config, e: State, b: nat)
    requires cfg.bs > 0 && e.running != []
  {
    b in e.running[0].Table() || b in Tables(e.waiting) || b in Lookup(cfg, e)
  }

  ghost predicate Starved(cfg: Config, e: State)
    requires cfg.bs > 0 && e.running != []
  {
    forall b :: 0 <= b < cfg.numBlocks ==> Occupied(cfg, e, b)
  }

  /** Everybody else has been preempted, every unpinned block evicted, and it was not enough. */
  lemma RoomFails(cfg: Config, m: Model, e: State, needed: nat)
    requires Lively(cfg) && Safe(cfg, m, e) && Settled(e) && (!cfg.caching ==> e.tree.nodes == map[])
    requires e.running != [] && FreeBlocks(cfg, MakeRoom(cfg, e, needed, {e.running[0].id})) < needed
    ensures var e1 := MakeRoom(cfg, e, needed, {e.running[0].id});
      && Safe(cfg, m, e1) && Settled(e1)
      && e1.running == [e.running[0]] && e1.waiting == Resets(e.running[1..]) + e.waiting
      && e1.tree.nodes == InUse(e).nodes
  {
    hide Safe, Settled, ReclaimFor, PreemptUntil, Distinct, InUse;
    MakeRoomKeeps(cfg, m, e, needed, {e.running[0].id});
    SafeDistinct(cfg, m, e);
    ReclaimQueue(cfg, e, needed);
    var e0 := ReclaimFor(cfg, e, needed);
    PreemptRest(cfg, e0, needed);
    ReclaimForKeeps(cfg, m, e, needed);
    PreemptUntilKeeps(cfg, m, e0, needed, {e.running[0].id});
    ReclaimedAll(cfg, m, e, needed);
  }

  lemma ReclaimForKeeps(cfg: Config, m: Model, e: State, needed: nat)
    requires cfg.bs > 0 && Safe(cfg, m, e) && Settled(e)
    ensures Safe(cfg, m, ReclaimFor(cfg, e, needed)) && Settled(ReclaimFor(cfg, e, needed))
  {
    hide Safe, Reclaim;
    ReclaimQueue(cfg, e, needed);
    if cfg.caching && needed - FreeBlocks(cfg, e) > 0 {
      ReclaimSafe(cfg, m, e, needed - FreeBlocks(cfg, e));
    }
  }

  lemma AttachTables(cfg: Config, e: State)
    requires cfg.bs > 0 && e.waiting != [] && WaitingOk(cfg, e.waiting[0])
    ensures Tables(Queued(Attach(cfg, e))) == Tables(Queued(e)) +
      if e.waiting[0].kv.None? then multiset(AdoptedBlocks(cfg, e)) else multiset{}
  {
    hide WaitingOk, Tables, Queued, AdoptedBlocks, HeadReplaced;
    if e.waiting[0].kv.None? {
      AttachIs(cfg, e);
      HeadTables(e, Attach(cfg, e), AdoptedHead(cfg, e));
      assert AdoptedHead(cfg, e).Table() == AdoptedBlocks(cfg, e);
      assert multiset(e.waiting[0].Table()) == multiset{};
    }
  }

  /** The state everybody but the oldest has been preempted in. */
  ghost predicate Alone(e: State, e1: State) {
    && e.running != [] && e1.running == [e.running[0]]
    && e1.waiting == Resets(e.running[1..]) + e.waiting
    && e1.tree.nodes == InUse(e).nodes
  }

  lemma AloneTables(e: State, e1: State)
    requires Alone(e, e1)
    ensures Tables(Queued(e1)) == multiset(e.running[0].Table()) + Tables(e.waiting)
  {
    hide Tables;
    TablesConcat(e1.running, e1.waiting);
    TablesOne(e.running[0]);
    ResetTables(e.running[1..], e.waiting);
  }

  /** Who is next in line then, and what it adopts. */
  lemma AloneNext(cfg: Config, e: State, e1: State)
    requires cfg.bs > 0 && Alone(e, e1)
    ensures |e.running| > 1 ==>
      e1.waiting != [] && e1.waiting[0].kv.None? && e1.waiting[0].prompt == e.running[1].prompt
    ensures |e.running| <= 1 ==> e1.waiting == e.waiting
    ensures e1.waiting != [] && e1.waiting[0].kv.None? && cfg.maxSeqs > 1 ==> AdoptedBlocks(cfg, e1) == Lookup(cfg, e)
    ensures e1.waiting == [] || e1.waiting[0].kv.Some? || cfg.maxSeqs <= 1 ==> Lookup(cfg, e) == []
  {
    hide InUse;
    if |e.running| > 1 {
      assert e1.waiting[0] == e.running[1..][0].Reset();
    } else {
      assert Resets(e.running[1..]) == [];
    }
    if e1.waiting != [] {
      SameNodes(cfg.bs, e1.tree, InUse(e), e1.waiting[0].prompt);
    }
  }

  lemma SameNodes(bs: nat, t: Tree, t': Tree, toks: seq<Token>)
    requires bs > 0 && t.nodes == t'.nodes
    ensures MatchBlocks(bs, t, toks) == MatchBlocks(bs, t', toks)
  {
  }

  /** So the tables in the queues are then exactly the blocks that stay. */
  lemma AfterLookup(cfg: Config, m: Model, e: State, e1: State)
    requires Lively(cfg) && Safe(cfg, m, e1) && Alone(e, e1)
    ensures forall b :: b in Tables(Queued(Attached(cfg, e1))) <==> Occupied(cfg, e, b)
  {
    hide Safe, Alone, Tables, Queued, AdoptedBlocks, Attach, Lookup;
    AloneTables(e, e1);
    AloneNext(cfg, e, e1);
    assert |e1.running| == 1 && e.running != [] by { assert Alone(e, e1); AloneIs(e, e1); }
    if e1.waiting != [] && cfg.maxSeqs > 1 {
      WaitingHead(cfg, m, e1);
      AttachTables(cfg, e1);
    }
    var kept := multiset(e.running[0].Table()) + Tables(e.waiting) + multiset(Lookup(cfg, e));
    assert Tables(Queued(Attached(cfg, e1))) == kept;
    forall b
      ensures b in kept <==> Occupied(cfg, e, b)
    {
    }
  }

  lemma AloneIs(e: State, e1: State)
    requires Alone(e, e1)
    ensures e.running != [] && e1.running == [e.running[0]]
  {
  }

  // ---- a decoding head

  /** Every block is out of reach in exactly the states in which the oldest request's missing block is. */
  lemma StarvedIs(cfg: Config, m: Model, e: State, e1: State)
    requires Lively(cfg) && Safe(cfg, m, e1) && Alone(e, e1)
    ensures var e2 := Attached(cfg, e1);
      e2.pool.free == [] && Unpinned(CacheOf(e2)) == {} <==> Starved(cfg, e)
  {
    hide Safe, Alone, Tables, Queued, Attached, Occupied, Unpinned;
    AloneIs(e, e1);
    AttachedSafe(cfg, m, e1);
    AfterLookup(cfg, m, e, e1);
    AllInUse(cfg, m, Attached(cfg, e1));
  }

  lemma LookupInUse(cfg: Config, e: State, b: nat)
    requires cfg.bs > 0 && b in Lookup(cfg, e)
    ensures exists p :: p in e.tree.nodes && p !in Unpinned(CacheOf(e)) && e.tree.nodes[p].block == b
  {
    hide Unpinned;
    var prompt := if |e.running| > 1 then e.running[1].prompt else e.waiting[0].prompt;
    assert b in MatchBlocks(cfg.bs, InUse(e), prompt);
    var path, d := Usable(cfg.bs, prompt), MatchDepth(cfg.bs, InUse(e), prompt);
    var i :| 0 <= i < d && MatchBlocks(cfg.bs, InUse(e), prompt)[i] == b;
    assert path[..i + 1] in InUse(e).nodes;
  }

  /** Starved: everything is in use as it stands. */
  lemma StarvedInUse(cfg: Config, m: Model, e: State)
    requires cfg.bs > 0 && Safe(cfg, m, e) && e.running != [] && Starved(cfg, e)
    ensures e.pool.free == [] && Unpinned(CacheOf(e)) == {}
  {
    forall b | 0 <= b < cfg.numBlocks
      ensures b in Tables(Queued(e))
    {
      OccupiedIsHeld(cfg, m, e, b);
    }
    hide Safe, Tables, Queued, Unpinned;
    AllInUse(cfg, m, e);
  }

  lemma OccupiedIsHeld(cfg: Config, m: Model, e: State, b: nat)
    requires cfg.bs > 0 && Safe(cfg, m, e) && e.running != [] && Occupied(cfg, e, b)
    ensures b in Tables(Queued(e))
  {
    hide ShapesOk, OwnershipOk, ViewsOk, NodesOk, OutputsOk, IdsOk, TreeOk, Shaped, Lookup, Tables;
    TablesConcat(e.running, e.waiting);
    TablesMember(e.running, e.running[0]);
    assert b in multiset(e.running[0].Table()) || b in Tables(e.waiting) || b in Lookup(cfg, e);
    if b in Lookup(cfg, e) {
      LookupInUse(cfg, e, b);
      var p :| p in e.tree.nodes && p !in Unpinned(CacheOf(e)) && e.tree.nodes[p].block == b;
      assert b in NodeBlocks(e.tree.nodes);
      assert b in Held(e);
      assert e.pool.ref[b] != 1;
    }
  }

  /** Then preemption and eviction gain nothing. */
  lemma StarvedFails(cfg: Config, m: Model, e: State)
    requires Lively(cfg) && Safe(cfg, m, e) && Settled(e) && e.running != [] && Starved(cfg, e)
    ensures FreeBlocks(cfg, e) < 1
    ensures FreeBlocks(cfg, MakeRoom(cfg, e, 1, {e.running[0].id})) < 1
  {
    StarvedInUse(cfg, m, e);
    var e1 := MakeRoom(cfg, e, 1, {e.running[0].id});
    assert Safe(cfg, m, e1) by {
      hide *;
      LivelyParts(cfg);
      MakeRoomKeeps(cfg, m, e, 1, {e.running[0].id});
    }
    StarvedRoom(cfg, m, e);
    forall b | 0 <= b < cfg.numBlocks
      ensures b in Held(e1)
    {
      OccupiedAfter(cfg, m, e, e1, b);
    }
    hide Safe, Held, MakeRoom, Starved, Unpinned;
    SafeMemoryOk(cfg, m, e1);
    NothingFree(cfg, e1);
  }

  lemma SafeMemoryOk(cfg: Config, m: Model, e: State)
    requires Safe(cfg, m, e)
    ensures MemoryOk(cfg, e)
  {
    hide MemoryOk, ShapesOk, OwnershipOk, ViewsOk, NodesOk, OutputsOk, IdsOk;
  }

  /** What making room leaves when nothing can be evicted. */
  lemma StarvedRoom(cfg: Config, m: Model, e: State)
    requires Lively(cfg) && Safe(cfg, m, e) && e.running != [] && Unpinned(CacheOf(e)) == {}
    ensures var e1 := MakeRoom(cfg, e, 1, {e.running[0].id});
      && e1.running != [] && e1.running[0] == e.running[0]
      && Tables(e1.waiting) == Tables(e.waiting) && e1.tree.nodes == e.tree.nodes
  {
    hide Safe, ReclaimFor, PreemptUntil, Distinct, Resets, Tables;
    SafeDistinct(cfg, m, e);
    ReclaimQueue(cfg, e, 1);
    NothingReclaimed(cfg, m, e, 1);
    var e0 := ReclaimFor(cfg, e, 1);
    PreemptRest(cfg, e0, 1);
    var e1 := PreemptUntil(cfg, e0, 1, {e.running[0].id});
    ResetTables(e.running[|e1.running|..], e.waiting);
  }

  lemma NothingReclaimed(cfg: Config, m: Model, e: State, needed: nat)
    requires cfg.bs > 0 && Safe(cfg, m, e) && Unpinned(CacheOf(e)) == {}
    ensures ReclaimFor(cfg, e, needed) == e
  {
    hide Safe, Reclaim, Unpinned;
    if cfg.caching && needed - FreeBlocks(cfg, e) > 0 {
      NobodyEvicted(cfg, m, e, needed - FreeBlocks(cfg, e));
    }
  }

  lemma NobodyEvicted(cfg: Config, m: Model, e: State, k: nat)
    requires cfg.bs > 0 && Safe(cfg, m, e) && Unpinned(CacheOf(e)) == {}
    ensures Reclaim(e, k) == e
  {
    hide TreeOk, OwnershipOk, ShapesOk, ViewsOk, NodesOk, OutputsOk, IdsOk, Shaped, FreeListOk, PinClosed, Unpinned,
      Evict, Victim;
    PinsAreClosed(cfg, e);
    VictimIsOldest(CacheOf(e));
    EvictStep(CacheOf(e), k);
  }

  lemma OccupiedAfter(cfg: Config, m: Model, e: State, e1: State, b: nat)
    requires cfg.bs > 0 && e.running != [] && Occupied(cfg, e, b)
    requires e1.running != [] && e1.running[0] == e.running[0]
    requires Tables(e1.waiting) == Tables(e.waiting) && e1.tree.nodes == e.tree.nodes
    ensures b in Held(e1)
  {
    hide Tables, Lookup, Unpinned;
    TablesConcat(e1.running, e1.waiting);
    TablesMember(e1.running, e1.running[0]);
    assert b in multiset(e.running[0].Table()) || b in Tables(e.waiting) || b in Lookup(cfg, e);
    if b in Lookup(cfg, e) {
      LookupInUse(cfg, e, b);
      var p :| p in e.tree.nodes && p !in Unpinned(CacheOf(e)) && e.tree.nodes[p].block == b;
      assert b in NodeBlocks(e1.tree.nodes);
    }
  }

  // ---- one call of schedule() with a decoding head

  /** Whoever is not running any more is passed over. */
  lemma {:induction false} RestGone(cfg: Config, w: Work, ids: seq<nat>)
    requires cfg.bs > 0 && |w.st.running| == 1 && w.st.running[0].id !in ids
    ensures DecodePhase(cfg, w, ids) == w
    decreases |ids|
  {
    if ids != [] && w.budget > 0 {
      assert Find(w.st.running, ids[0]) == 1 by {
        assert w.st.running[1..] == [];
      }
      assert DecodeOne(cfg, w, ids[0]) == w;
      hide DecodeOne, Find;
      RestGone(cfg, w, ids[1..]);
    }
  }

  lemma DoneSkips(cfg: Config, w: Work)
    requires cfg.bs > 0 && |w.st.running| == 1 && w.st.running[0].PrefillDone()
    ensures PrefillPhase(cfg, w, 0) == w
  {
    assert PrefillOne(cfg, w, w.st.running[0]) == w;
  }

  /** The last phase for a lone decoding request with nothing else planned. */
  lemma LoneForced(cfg: Config, m: Model, w: Work)
    requires Lively(cfg) && Safe(cfg, m, w.st) && Settled(w.st) && (!cfg.caching ==> w.st.tree.nodes == map[])
    requires w == Work(w.st, w.budget, 0, {}, [], []) && |w.st.running| == 1
    requires w.st.running[0].PrefillDone() && w.st.running[0].kv.Some? && FreeBlocks(cfg, w.st) < 1
    requires Need(cfg, w.st.running[0], w.st.running[0].computed + 1) <= 1
    ensures var r := w.st.running[0];
      var w' := ForceHead(cfg, BreakStall(cfg, w));
      var short := Need(cfg, r, r.computed + 1) == 1 && w.st.pool.free == [] && Unpinned(CacheOf(w.st)) == {};
      && (short ==> w' == w)
      && (!short ==> w'.decodes == [r.id] && w'.chunks == [] && w'.st.running == [r])
  {
    hide Safe, Settled, MakeRoom, Need, Unpinned;
    var r := w.st.running[0];
    assert BreakStall(cfg, w) == w;
    var needed := Need(cfg, r, r.computed + 1);
    if needed > |w.st.pool.free| {
      assert needed == 1 && w.st.pool.free == [];
      LoneRoom(cfg, m, w.st);
    }
    assert w.decodes + [r.id] == [r.id];
  }

  lemma LoneRoom(cfg: Config, m: Model, e: State)
    requires Lively(cfg) && Safe(cfg, m, e) && Settled(e) && (!cfg.caching ==> e.tree.nodes == map[])
    requires |e.running| == 1 && e.pool.free == []
    ensures var e' := MakeRoom(cfg, e, 1, {e.running[0].id});
      && e'.running == e.running
      && (Unpinned(CacheOf(e)) == {} ==> e' == e)
      && (Unpinned(CacheOf(e)) != {} ==> |e'.pool.free| >= 1)
  {
    hide Safe, Settled, ReclaimFor, Unpinned, MakeRoom;
    NoNodes(e);
    ReclaimQueue(cfg, e, 1);
    NobodyElse(cfg, e);
    if Unpinned(CacheOf(e)) == {} {
      NothingReclaimed(cfg, m, e, 1);
    } else {
      SomethingReclaimed(cfg, m, e);
    }
  }

  lemma NobodyElse(cfg: Config, e: State)
    requires |e.running| == 1
    ensures MakeRoom(cfg, e, 1, {e.running[0].id}) == ReclaimFor(cfg, e, 1)
  {
    hide ReclaimFor;
    ReclaimQueue(cfg, e, 1);
    NewestIsLast(e.running, {e.running[0].id}, 1);
  }

  lemma SomethingReclaimed(cfg: Config, m: Model, e: State)
    requires cfg.bs > 0 && cfg.caching && Safe(cfg, m, e) && e.pool.free == [] && Unpinned(CacheOf(e)) != {}
    ensures |ReclaimFor(cfg, e, 1).pool.free| >= 1
  {
    hide Safe, Reclaim, Unpinned, TakesOldest, Set, Victims;
    var k := 1 - FreeBlocks(cfg, e);
    ReclaimIsExact(cfg, m, e, k);
    SomePath(Unpinned(CacheOf(e)));
  }

  lemma NoNodes(e: State)
    ensures e.tree.nodes == map[] ==> Unpinned(CacheOf(e)) == {}
  {
  }

  lemma SomePath(u: set<Path>)
    requires u != {}
    ensures |u| >= 1
  {
  }

  /** The first decode either takes a block or leaves its request alone. */
  lemma FirstDecode(cfg: Config, e: State)
    requires cfg.bs > 0 && e.running != [] && e.running[0].PrefillDone()
    ensures var r, w := e.running[0], Work(e, cfg.budget, 0, {}, [], []);
      var needed := Need(cfg, r, r.computed + 1);
      var e1 := MakeRoom(cfg, e, needed, {r.id});
      if needed <= FreeBlocks(cfg, e) || needed <= FreeBlocks(cfg, e1)
      then DecodeOne(cfg, w, r.id).decodes == [r.id]
      else DecodeOne(cfg, w, r.id) == w.(st := e1)
  {
    hide MakeRoom, Need;
    var r := e.running[0];
    assert Find(e.running, r.id) == 0;
    assert {} + {r.id} == {r.id};
    assert [] + [r.id] == [r.id];
  }

  /** A decode taken first is still planned after the first two phases. */
  lemma TakenGoes(cfg: Config, m: Model, e: State)
    requires Lively(cfg) && Safe(cfg, m, e) && Settled(e) && MidIsLast(e.running) && e.running != []
    requires DecodeOne(cfg, Work(e, cfg.budget, 0, {}, [], []), e.running[0].id).decodes == [e.running[0].id]
    ensures HeadGoes(cfg, e)
  {
    hide *;
    LivelyParts(cfg);
    var w0, id, ids := Work(e, cfg.budget, 0, {}, [], []), e.running[0].id, Ids(e.running);
    DecodesFirst(cfg, w0, ids);
    var w' := DecodeOne(cfg, w0, id);
    FirstPlanned(w', id);
    DecodePhaseExtends(cfg, w', ids[1..]);
    var w1 := DecodePhase(cfg, w0, ids);
    PlannedStays(w', w1, id);
    PrefillPhaseExtends(cfg, w1, 0);
    PlannedStays(w1, PrefillPhase(cfg, w1, 0), id);
    RunningGoes(cfg, m, e);
  }

  lemma FirstPlanned(w: Work, id: nat)
    requires w.decodes == [id]
    ensures Planned(w, id) && !Empty(w)
  {
  }

  lemma RunningGoes(cfg: Config, m: Model, e: State)
    requires Lively(cfg) && Safe(cfg, m, e) && Settled(e) && MidIsLast(e.running) && e.running != []
    requires var w0 := Work(e, cfg.budget, 0, {}, [], []);
      Planned(PrefillPhase(cfg, DecodePhase(cfg, w0, Ids(e.running)), 0), e.running[0].id)
    ensures HeadGoes(cfg, e)
  {
    hide *;
    LivelyParts(cfg);
    PlannedKept(cfg, m, e);
    ScheduleInOrder(cfg, m, e);
    QueuedFirst(e);
    HeadGoesIs(cfg, e);
  }

  /** When making room has failed, what is left of the call. */
  lemma NothingElse(cfg: Config, m: Model, e: State, needed: nat)
    requires Lively(cfg) && Safe(cfg, m, e) && Settled(e) && (!cfg.caching ==> e.tree.nodes == map[])
    requires e.running != [] && e.running[0].PrefillDone()
    requires needed == Need(cfg, e.running[0], e.running[0].computed + 1) && needed <= 1
    requires var e1 := MakeRoom(cfg, e, needed, {e.running[0].id});
      needed > FreeBlocks(cfg, e) && needed > FreeBlocks(cfg, e1)
    ensures var e1 := MakeRoom(cfg, e, needed, {e.running[0].id});
      && Alone(e, e1) && Safe(cfg, m, e1) && Settled(e1)
      && Schedule(cfg, e) ==
        ForceHead(cfg, BreakStall(cfg, Work(Attached(cfg, e1), cfg.budget, 0, {}, [], [])))
  {
    hide *;
    LivelyParts(cfg);
    var r, ids := e.running[0], Ids(e.running);
    var e1 := MakeRoom(cfg, e, needed, {r.id});
    RoomFails(cfg, m, e, needed);
    AloneHolds(e, e1);
    FirstDecode(cfg, e);
    var w0, w := Work(e, cfg.budget, 0, {}, [], []), Work(e1, cfg.budget, 0, {}, [], []);
    DecodesFirst(cfg, w0, ids);
    SafeDistinct(cfg, m, e);
    NotTheFirst(e);
    RestGone(cfg, w, ids[1..]);
    DoneSkips(cfg, w);
    AvailableIs(cfg, w);
    FreeIs(cfg, e1);
    NobodyAdmitted(cfg, m, w);
    ScheduleUnfolds(cfg, e);
  }

  lemma FreeIs(cfg: Config, e: State)
    ensures FreeBlocks(cfg, e) == |e.pool.free| - cfg.watermark
  {
  }

  lemma AloneHolds(e: State, e1: State)
    requires e.running != [] && e1.running == [e.running[0]]
    requires e1.waiting == Resets(e.running[1..]) + e.waiting && e1.tree.nodes == InUse(e).nodes
    ensures Alone(e, e1)
  {
  }

  lemma NotTheFirst(e: State)
    requires e.running != [] && Distinct(e.running)
    ensures e.running[0].id !in Ids(e.running)[1..] && Ids(e.running) != [] && Ids(e.running)[0] == e.running[0].id
  {
  }

  // ---- standing still

  /** Why the oldest running request gets nothing in this step. */
  ghost predicate Stalled(cfg: Config, e: State)
    requires cfg.bs > 0 && e.running != []
  {
    && AtBoundary(cfg, e.running[0])
    && if e.running[0].PrefillDone() then Starved(cfg, e) else |e.pool.free| <= cfg.watermark
  }

  /** Nothing is planned, and the oldest request is left as it was, alone and stalled. */
  ghost predicate StandsStill(cfg: Config, e: State, w: Work)
    requires cfg.bs > 0
  {
    && Empty(w) && e.running != [] && w.st.running == [e.running[0]] && Stalled(cfg, w.st)
  }

  lemma HeadShape(cfg: Config, m: Model, e: State)
    requires cfg.bs > 0 && Safe(cfg, m, e) && Settled(e) && e.running != []
    ensures var r := e.running[0];
      && PagedOk(cfg, r) && r.kv.Some? && Need(cfg, r, r.computed + 1) == (if AtBoundary(cfg, r) then 1 else 0)
  {
    hide Safe, Settled, Need, AtBoundary;
    RunningHead(cfg, m, e);
    BoundaryNeed(cfg, e.running[0]);
  }

  lemma DecodingHead(cfg: Config, m: Model, e: State)
    requires Lively(cfg) && Safe(cfg, m, e) && Settled(e) && MidIsLast(e.running)
    requires e.running != [] && e.running[0].PrefillDone() && (!cfg.caching ==> e.tree.nodes == map[])
    ensures if Stalled(cfg, e) then StandsStill(cfg, e, Schedule(cfg, e)) else HeadGoes(cfg, e)
  {
    hide *;
    LivelyParts(cfg);
    HeadShape(cfg, m, e);
    StalledIs(cfg, e);
    var r := e.running[0];
    var needed := Need(cfg, r, r.computed + 1);
    var e1 := MakeRoom(cfg, e, needed, {r.id});
    if Stalled(cfg, e) {
      StarvedFails(cfg, m, e);
    }
    FirstDecode(cfg, e);
    if needed <= FreeBlocks(cfg, e) || needed <= FreeBlocks(cfg, e1) {
      TakenGoes(cfg, m, e);
    } else {
      NothingElse(cfg, m, e, needed);
      LastResort(cfg, m, e, e1, needed);
    }
  }

  lemma StalledIs(cfg: Config, e: State)
    requires cfg.bs > 0 && e.running != []
    ensures e.running[0].PrefillDone() ==> (Stalled(cfg, e) <==> AtBoundary(cfg, e.running[0]) && Starved(cfg, e))
    ensures !e.running[0].PrefillDone() ==>
      (Stalled(cfg, e) <==> AtBoundary(cfg, e.running[0]) && |e.pool.free| <= cfg.watermark)
  {
    hide Starved, AtBoundary;
  }

  /** The last phase helps unless every block is out of reach. */
  lemma LastResort(cfg: Config, m: Model, e: State, e1: State, needed: nat)
    requires Lively(cfg) && Safe(cfg, m, e) && Settled(e) && (!cfg.caching ==> e.tree.nodes == map[])
    requires MidIsLast(e.running) && Alone(e, e1) && Safe(cfg, m, e1) && Settled(e1)
    requires e.running != [] && e.running[0].PrefillDone()
    requires needed == Need(cfg, e.running[0], e.running[0].computed + 1) && needed > FreeBlocks(cfg, e1)
    requires Schedule(cfg, e) == ForceHead(cfg, BreakStall(cfg, Work(Attached(cfg, e1), cfg.budget, 0, {}, [], [])))
    ensures if Stalled(cfg, e) then StandsStill(cfg, e, Schedule(cfg, e)) else HeadGoes(cfg, e)
  {
    hide *;
    LivelyParts(cfg);
    var r, e2 := e.running[0], Attached(cfg, e1);
    HeadShape(cfg, m, e);
    StalledIs(cfg, e);
    AloneIs(e, e1);
    AttachedSafe(cfg, m, e1);
    SettledSame(e1, e2);
    BareStays(cfg, e, e1);
    FreeIs(cfg, e1);
    FreeIs(cfg, e2);
    StarvedIs(cfg, m, e, e1);
    LoneForced(cfg, m, Work(e2, cfg.budget, 0, {}, [], []));
    if Stalled(cfg, e) {
      StalledStays(cfg, m, e2);
      NoPlan(Schedule(cfg, e));
      StandsStillIs(cfg, e, Schedule(cfg, e));
    } else {
      FirstPlanned(Schedule(cfg, e), r.id);
      ScheduleInOrder(cfg, m, e);
      QueuedFirst(e);
      HeadGoesIs(cfg, e);
    }
  }

  /** Without a cache the tree is empty and stays so. */
  lemma BareStays(cfg: Config, e: State, e1: State)
    requires cfg.bs > 0 && Alone(e, e1) && (!cfg.caching ==> e.tree.nodes == map[])
    ensures !cfg.caching ==> Attached(cfg, e1).tree.nodes == map[]
  {
    hide Unpinned, MatchBlocks;
  }

  lemma NoPlan(w: Work)
    ensures Empty(w) <==> w.decodes == [] && w.chunks == []
  {
  }

  lemma StandsStillIs(cfg: Config, e: State, w: Work)
    requires cfg.bs > 0 && Empty(w) && e.running != [] && w.st.running == [e.running[0]] && Stalled(cfg, w.st)
    ensures StandsStill(cfg, e, w)
  {
    hide Stalled, Empty;
  }

  /** Alone, with nothing free and nothing to evict, a decoding request at a boundary is stalled. */
  lemma StalledStays(cfg: Config, m: Model, e: State)
    requires cfg.bs > 0 && Safe(cfg, m, e) && |e.running| == 1 && e.running[0].PrefillDone()
    requires AtBoundary(cfg, e.running[0]) && e.pool.free == [] && Unpinned(CacheOf(e)) == {}
    ensures Stalled(cfg, e)
  {
    hide Safe, Unpinned, Tables, Lookup;
    AllInUse(cfg, m, e);
    TablesConcat(e.running, e.waiting);
    assert e.running == [e.running[0]];
    TablesOne(e.running[0]);
    forall b | 0 <= b < cfg.numBlocks
      ensures Occupied(cfg, e, b)
    {
      assert b in Tables(Queued(e));
    }
  }

  // ---- a head in its prefill

  lemma PrefillingHead(cfg: Config, m: Model, e: State)
    requires Lively(cfg) && Safe(cfg, m, e) && Settled(e) && MidIsLast(e.running)
    requires e.running != [] && !e.running[0].PrefillDone()
    ensures if Stalled(cfg, e) then StandsStill(cfg, e, Schedule(cfg, e)) else HeadGoes(cfg, e)
  {
    hide *;
    LivelyParts(cfg);
    var r, w0 := e.running[0], Work(e, cfg.budget, 0, {}, [], []);
    HeadShape(cfg, m, e);
    StalledIs(cfg, e);
    LonePrefiller(cfg, m, e);
    SkipsPrefill(cfg, w0);
    NotDone(r);
    AvailableIs(cfg, w0);
    NoChunkExactly(cfg, r, cfg.budget, Available(cfg, w0));
    OneChunk(cfg, w0);
    if Stalled(cfg, e) {
      NobodyAdmitted(cfg, m, w0);
      AttachedSafe(cfg, m, e);
      NoForce(cfg, w0.(st := Attached(cfg, e)));
      ScheduleUnfolds(cfg, e);
      var w := Schedule(cfg, e);
      StalledIs(cfg, w.st);
      NoPlan(w);
      OnlyOne(e);
      StandsStillIs(cfg, e, w);
    } else {
      RunningGoes(cfg, m, e);
    }
  }

  lemma NotDone(r: Req)
    requires !r.PrefillDone()
    ensures r.computed < r.PrefillTarget()
  {
  }

  lemma OnlyOne(e: State)
    requires |e.running| == 1
    ensures e.running == [e.running[0]]
  {
  }

  /** The second phase for a lone request in its prefill. */
  lemma OneChunk(cfg: Config, w: Work)
    requires cfg.bs > 0 && |w.st.running| == 1 && !w.st.running[0].PrefillDone() && w.budget > 0 && w.chunks == []
    ensures var r := w.st.running[0];
      if MakeChunk(cfg, r, w.budget, Available(cfg, w)).None? then PrefillPhase(cfg, w, 0) == w
      else Planned(PrefillPhase(cfg, w, 0), r.id)
  {
    hide MakeChunk, Need;
    var r := w.st.running[0];
    var w1 := PrefillOne(cfg, w, r);
    if MakeChunk(cfg, r, w.budget, Available(cfg, w)).Some? {
      ChunkFits(cfg, r, w.budget, Available(cfg, w));
      var c := MakeChunk(cfg, r, w.budget, Available(cfg, w)).value;
      assert w1.chunks == [c];
      assert c in w1.chunks;
      assert Planned(w1, r.id);
      PrefillPhaseExtends(cfg, w1, 1);
      PlannedStays(w1, PrefillPhase(cfg, w1, 1), r.id);
    }
  }

  /** With somebody running who is not decoding the last phase does nothing. */
  lemma NoForce(cfg: Config, w: Work)
    requires cfg.bs > 0 && w.st.running != [] && !w.st.running[0].PrefillDone()
    ensures ForceHead(cfg, BreakStall(cfg, w)) == w
  {
  }

  // ---- nobody running

  /** With nobody running, the head of the queue is admitted exactly when a block is free above the watermark. */
  lemma WaitingHeadGoes(cfg: Config, m: Model, e: State)
    requires Lively(cfg) && Safe(cfg, m, e) && Settled(e) && e.running == [] && e.waiting != []
    ensures |e.pool.free| > cfg.watermark ==> HeadGoes(cfg, e)
    ensures |e.pool.free| <= cfg.watermark ==>
      Empty(Schedule(cfg, e)) && Schedule(cfg, e).st.running == []
  {
    hide *;
    LivelyParts(cfg);
    var w0 := Work(e, cfg.budget, 0, {}, [], []);
    StartPlanning(cfg, m, e);
    EmptyPhases(cfg, w0);
    ScheduleUnfolds(cfg, e);
    AvailableIs(cfg, w0);
    if |e.pool.free| > cfg.watermark {
      FirstAdmission(cfg, m, w0);
      AdmittedFirst(cfg, m, e, AdmitPhase(cfg, w0));
    } else {
      NobodyAdmitted(cfg, m, w0);
      AttachedSafe(cfg, m, e);
      NoPlan(w0.(st := Attached(cfg, e)));
      QuietStall(cfg, w0.(st := Attached(cfg, e)));
    }
  }

  lemma QuietStall(cfg: Config, w: Work)
    requires cfg.bs > 0 && Empty(w) && w.st.running == []
    ensures Empty(ForceHead(cfg, BreakStall(cfg, w))) && ForceHead(cfg, BreakStall(cfg, w)).st.running == []
  {
    hide Evict;
  }

  /** The head of the queue is admitted with its first slice. */
  lemma FirstAdmission(cfg: Config, m: Model, w: Work)
    requires Lively(cfg) && Planning(cfg, m, w) && w.st.running == [] && w.st.waiting != []
    requires w == Work(w.st, cfg.budget, 0, {}, [], []) && Available(cfg, w) > 0
    ensures var w' := AdmitPhase(cfg, w);
      && Planned(w', w.st.waiting[0].id) && w'.st.running != []
      && TicketOf(w'.st.running[0]) == TicketOf(w.st.waiting[0])
      && w'.st.running[0].computed >= w.st.waiting[0].computed
  {
    hide *;
    LivelyParts(cfg);
    PlanningParts(cfg, m, w);
    AttachSafe(cfg, m, w.st);
    var e := Attach(cfg, w.st);
    WaitingHead(cfg, m, w.st);
    WaitingHead(cfg, m, e);
    AttachedHead(cfg, w.st);
    AttachRunning(cfg, w.st);
    var r := e.waiting[0].(status := Prefill);
    AdmittedNeedsMemory(cfg, e.waiting[0]);
    WaitingNeed(cfg, e.waiting[0]);
    AdmittedRoom(cfg, e.waiting[0]);
    AdmitQueues(e);
    var w2 := w.(st := Admit(e));
    AvailableIs(cfg, w);
    AvailableIs(cfg, w.(st := e));
    AvailableIs(cfg, w2);
    SameTarget(e.waiting[0]);
    AdmittedGetsAChunk(cfg, r, w.budget, Available(cfg, w2));
    var c := MakeChunk(cfg, r, w.budget, Available(cfg, w2)).value;
    ChunkFits(cfg, r, w.budget, Available(cfg, w2));
    AdmitStep(cfg, w, r, c);
    var w3 := TakeChunk(cfg, w2, r, c);
    TakenChunk(cfg, w2, r, c);
    SameTicket(e.waiting[0]);
    assert w3.st.running == [r];
    FirstSlice(cfg, w2, r, c);
    AdmitPhaseExtends(cfg, w3);
    PlannedStays(w3, AdmitPhase(cfg, w3), c.id);
  }

  lemma SameTicket(r: Req)
    ensures TicketOf(r.(status := Prefill)) == TicketOf(r)
  {
  }

  lemma TakenChunk(cfg: Config, w: Work, r: Req, c: Slice)
    requires cfg.bs > 0
    ensures TakeChunk(cfg, w, r, c).st == w.st
  {
  }

  lemma WaitingNeed(cfg: Config, r: Req)
    requires cfg.bs > 0 && WaitingOk(cfg, r)
    ensures Need(cfg, r, r.computed + 1) == 1
  {
    BoundaryNeed(cfg, r);
  }

  /** A lookup changes neither who is first nor the position downwards. */
  lemma AttachedHead(cfg: Config, e: State)
    requires cfg.bs > 0 && e.waiting != [] && WaitingOk(cfg, e.waiting[0])
    ensures var e' := Attach(cfg, e);
      && e'.waiting != [] && TicketOf(e'.waiting[0]) == TicketOf(e.waiting[0])
      && e'.waiting[0].computed >= e.waiting[0].computed && e'.waiting[0].id == e.waiting[0].id
  {
    hide MatchBlocks, MatchTree, IncrefMany;
    if e.waiting[0].kv.None? {
      assert e.waiting[0].computed == 0;
    }
  }

  lemma AdmittedFirst(cfg: Config, m: Model, e: State, w: Work)
    requires Lively(cfg) && Safe(cfg, m, e) && Settled(e) && e.running == [] && e.waiting != []
    requires Schedule(cfg, e) == ForceHead(cfg, BreakStall(cfg, w))
    requires Planned(w, e.waiting[0].id) && w.st.running != []
    requires TicketOf(w.st.running[0]) == TicketOf(e.waiting[0]) && w.st.running[0].computed >= e.waiting[0].computed
    ensures HeadGoes(cfg, e)
  {
    hide *;
    LivelyParts(cfg);
    PlannedStays(w, w, e.waiting[0].id);
    LastPhases(cfg, w);
    NoneMid(e);
    ScheduleInOrder(cfg, m, e);
    QueuedFirst(e);
    HeadGoesIs(cfg, e);
  }

  lemma NoneMid(e: State)
    requires e.running == []
    ensures MidIsLast(e.running)
  {
  }
}
