/** Executing a plan: every item of an executable plan runs, and the invariant is kept. */
module SafetyExec {
  import opened Numbers
  import opened Blocks
  import opened Paging
  import opened Decoding
  import opened Options
  import opened Requests
  import opened Scheduling
  import opened Serving
  import opened Safety
  import opened SafetyPlan
  import opened SafetySchedule
  import opened SafetyFeed

  // ---- one item, whatever its kind

  lemma UpdatedShapes(cfg: Config, e: State, i: nat, p: Pass, r': Req)
    requires i < |e.running| && ShapesOk(cfg, e) && RunningOk(cfg, r')
    ensures ShapesOk(cfg, Commit(e, i, p, r'))
  {
    hide RunningOk, WaitingOk;
    var q := e.running[i := r'];
    forall r | r in q
      ensures RunningOk(cfg, r)
    {
      assert r == r' || r in e.running;
    }
  }

  lemma UpdatedOutputs(m: Model, e: State, i: nat, p: Pass, r': Req)
    requires i < |e.running| && OutputsOk(m, e) && OutputOk(m, r')
    ensures OutputsOk(m, Commit(e, i, p, r'))
  {
    CommittedQueue(e, i, p, r');
    hide OutputOk, Queued;
  }

  /** Committing a pass whose new record is well formed keeps the invariant. */
  lemma CommittedSafe(cfg: Config, m: Model, e: State, i: nat, toks: seq<Token>, p: Pass, more: seq<nat>, e': State,
                      r': Req)
    requires Safe(cfg, m, e) && Committed(cfg, m, e, i, toks, p, more, e', r')
    requires RunningOk(cfg, r') && OutputOk(m, r')
    ensures Safe(cfg, m, e')
  {
    assert i < |e.running| && e' == Commit(e, i, p, r') && r'.id == e.running[i].id;
    hide Committed, Commit, RunningOk, OutputOk, MemoryOk, ShapesOk, OwnershipOk, ViewsOk, NodesOk, OutputsOk, IdsOk;
    CommittedMemory(cfg, m, e, i, toks, p, more, e', r');
    CommittedOwnership(cfg, m, e, i, toks, p, more, e', r');
    CommittedNodes(cfg, m, e, i, toks, p, more, e', r');
    CommittedIds(e, i, p, r');
    UpdatedShapes(cfg, e, i, p, r');
    UpdatedOutputs(m, e, i, p, r');
  }

  lemma PassSafe(cfg: Config, m: Model, e: State, i: nat, toks: seq<Token>, p: Pass, more: seq<nat>, r': Req)
    requires Safe(cfg, m, e) && cfg.bs > 0 && Feedable(cfg, e, i, toks) && Passed(cfg, m, e, i, toks, p, more)
    requires i < |e.running| && e.running[i].Adopted() <= |e.running[i].Table()|
    requires Fed(e.running[i], r', p.table, e.running[i].computed + |toks|)
    requires RunningOk(cfg, r') && OutputOk(m, r')
    ensures Safe(cfg, m, Commit(e, i, p, r'))
  {
    hide Safe, Feedable, Passed, Fed, RunningOk, OutputOk, Commit;
    assert Committed(cfg, m, e, i, toks, p, more, Commit(e, i, p, r'), r');
    CommittedSafe(cfg, m, e, i, toks, p, more, Commit(e, i, p, r'), r');
  }

  /** The new block table has the pages the new length needs and no spare one. */
  lemma FedPages(cfg: Config, e: State, i: nat, toks: seq<Token>, m: Model, p: Pass, more: seq<nat>, r': Req)
    requires cfg.bs > 0 && Feedable(cfg, e, i, toks) && Passed(cfg, m, e, i, toks, p, more)
    requires PagedOk(cfg, e.running[i])
    requires Fed(e.running[i], r', p.table, e.running[i].computed + |toks|)
    ensures PagedOk(cfg, r')
  {
    hide Gather, Shaped, InRange, Kept, Counts, PrivateFrom, Held, Others, Columns;
    var r := e.running[i];
    var pages := CeilDiv(r'.computed, cfg.bs);
    if pages > |r.Table()| {
      assert |p.table| == pages;
    } else {
      assert |p.table| == |r.Table()|;
    }
  }

  lemma FindUpdated(q: seq<Req>, i: nat, r': Req, id: nat)
    requires i < |q| && r'.id == q[i].id
    ensures Find(q[i := r'], id) == Find(q, id)
    ensures id != r'.id ==> Get(q[i := r'], id) == Get(q, id)
  {
    forall j | 0 <= j < |q|
      ensures q[i := r'][j].id == q[j].id
    {
    }
    assert Find(q[i := r'], id) == Find(q, id);
  }

  /** How a pass moves the queues: one running record changes, nothing else. */
  ghost predicate Advanced(e: State, e': State, i: nat, r': Req) {
    && i < |e.running| && r'.id == e.running[i].id
    && e'.running == e.running[i := r'] && e'.waiting == e.waiting
    && e'.done == e.done && e'.nextId == e.nextId && e'.tree == e.tree
  }

  lemma OthersKeepCosts(cfg: Config, e: State, e': State, i: nat, r': Req, decodes: seq<nat>, chunks: seq<Slice>)
    requires cfg.bs > 0 && Advanced(e, e', i, r')
    requires ItemsOk(e.running, decodes, chunks)
    requires r'.id !in decodes && forall c :: c in chunks ==> c.id != r'.id
    ensures ItemsOk(e'.running, decodes, chunks)
    ensures DecodeCost(cfg, e'.running, decodes) == DecodeCost(cfg, e.running, decodes)
    ensures ChunkCost(cfg, e'.running, chunks) == ChunkCost(cfg, e.running, chunks)
  {
    hide Get, DecodeCost, ChunkCost, ChunkReady;
    forall id | id != r'.id
      ensures Get(e'.running, id) == Get(e.running, id)
    {
      FindUpdated(e.running, i, r', id);
    }
    DecodeCostSame(cfg, e.running, e'.running, decodes);
    ChunkCostSame(cfg, e.running, e'.running, chunks);
  }

  // ---- sampling

  /**
   Emitting the reference's next token keeps the output a prefix of the reference, and finishes
   exactly at its end.
   */
  lemma EmitKeepsOutput(m: Model, r: Req, r1: Req, t: Token)
    requires r.prompt != [] && OutputOk(m, r) && !r.IsFinished() && |r.output| < r.maxTokens
    requires r1.prompt == r.prompt && r1.output == r.output && r1.maxTokens == r.maxTokens
    requires r1.ignoreEos == r.ignoreEos
    requires !r1.IsFinished() && t == NextToken(m, r.AllTokens())
    ensures OutputOk(m, r1.Emit(t))
  {
    hide NextToken, Continue;
    var r', all := r1.Emit(t), r.AllTokens();
    assert r'.AllTokens() == all + [t];
    assert Reference(m, r') == Reference(m, r);
    ContinueStep(m, all, r.maxTokens - |r.output|, r.ignoreEos, r.output);
    hide Reference;
  }

  /** One token of plain decoding, seen from the output so far. */
  lemma ContinueStep(m: Model, all: seq<Token>, left: nat, ignoreEos: bool, output: seq<Token>)
    requires all != [] && left > 0
    ensures var t, whole := NextToken(m, all), output + Continue(m, all, left, ignoreEos);
      && (t == EOS_ID && !ignoreEos ==> whole == output + [t])
      && (!(t == EOS_ID && !ignoreEos) ==> whole == output + [t] + Continue(m, all + [t], left - 1, ignoreEos))
      && (left == 1 ==> whole == output + [t])
  {
    hide NextToken;
    var t := NextToken(m, all);
    assert Continue(m, all + [t], 0, ignoreEos) == [];
  }

  // ---- a prefill chunk

  /** The record after a chunk. */
  function AfterChunk(r: Req, c: Slice, p: Pass): Req {
    var r1 := Advance(r, p, c.start + c.count);
    var r2 := if c.final then r1.(status := Running) else r1;
    if c.final && r.output == [] then r2.Emit(p.token) else r2
  }

  function ChunkFeed(r: Req, c: Slice): seq<Token>
    requires c.start + c.count <= |r.PrefillTokens()|
  {
    r.PrefillTokens()[c.start..c.start + c.count]
  }

  lemma ChunkFeedIs(r: Req, c: Slice)
    requires ChunkReady(Some(r), c)
    ensures c.start + c.count <= |r.PrefillTokens()| && |ChunkFeed(r, c)| == c.count
    ensures r.computed + c.count <= |r.AllTokens()|
    ensures ChunkFeed(r, c) == r.AllTokens()[r.computed..r.computed + c.count]
  {
  }

  lemma ChunkFeedable(cfg: Config, e: State, i: nat, c: Slice)
    requires cfg.bs > 0 && i < |e.running| && ChunkReady(Some(e.running[i]), c) && RunningOk(cfg, e.running[i])
    requires CostOf(cfg, Some(e.running[i]), c.start + c.count) <= |e.pool.free|
    ensures c.start + c.count <= |e.running[i].PrefillTokens()|
    ensures Feedable(cfg, e, i, ChunkFeed(e.running[i], c))
  {
    ChunkFeedIs(e.running[i], c);
    hide BlocksNeeded;
  }

  lemma AfterChunkOk(cfg: Config, m: Model, e: State, i: nat, c: Slice, p: Pass, more: seq<nat>)
    requires cfg.bs > 0 && i < |e.running| && ChunkReady(Some(e.running[i]), c)
    requires RunningOk(cfg, e.running[i]) && OutputOk(m, e.running[i])
    requires c.start + c.count <= |e.running[i].PrefillTokens()|
    requires Feedable(cfg, e, i, ChunkFeed(e.running[i], c))
    requires Passed(cfg, m, e, i, ChunkFeed(e.running[i], c), p, more)
    ensures var r, r' := e.running[i], AfterChunk(e.running[i], c, p);
      && Fed(r, r', p.table, c.start + c.count)
      && RunningOk(cfg, r') && OutputOk(m, r')
  {
    var r, r' := e.running[i], AfterChunk(e.running[i], c, p);
    ChunkFeedIs(r, c);
    AfterChunkFed(r, c, p);
    hide OutputOk, RunningOk, ChunkFeed, NextToken, AfterChunk, Need, Gather, Shaped, InRange, Kept, Counts,
      PrivateFrom, Held, Others, Columns;
    RunningParts(cfg, r);
    FedPages(cfg, e, i, ChunkFeed(r, c), m, p, more, r');
    ChunkOutput(m, r, c, p);
    hide Passed, Feedable, Fed, PagedOk;
    AfterChunkRunning(cfg, r, c, p);
  }

  lemma RunningParts(cfg: Config, r: Req)
    requires RunningOk(cfg, r)
    ensures PagedOk(cfg, r) && r.prompt != [] && r.Adopted() <= |r.Table()|
    ensures r.Adopted() * cfg.bs <= r.computed <= |r.Table()| * cfg.bs
    ensures r.kv.Some?
    ensures r.status == Prefill || r.status == Running ==> |r.output| < r.maxTokens
  {
  }

  lemma AfterChunkFed(r: Req, c: Slice, p: Pass)
    ensures Fed(r, AfterChunk(r, c, p), p.table, c.start + c.count)
  {
  }

  lemma AfterChunkRunning(cfg: Config, r: Req, c: Slice, p: Pass)
    requires RunningOk(cfg, r) && ChunkReady(Some(r), c) && PagedOk(cfg, AfterChunk(r, c, p))
    ensures RunningOk(cfg, AfterChunk(r, c, p))
  {
    hide PagedOk;
  }

  lemma ChunkOutput(m: Model, r: Req, c: Slice, p: Pass)
    requires ChunkReady(Some(r), c) && OutputOk(m, r) && |r.output| < r.maxTokens
    requires c.start + c.count <= |r.AllTokens()| && r.prompt != []
    requires p.token == NextToken(m, r.AllTokens()[..c.start + c.count])
    ensures OutputOk(m, AfterChunk(r, c, p))
  {
    hide NextToken, Continue;
    if c.final && r.output == [] {
      assert r.AllTokens()[..c.start + c.count] == r.AllTokens();
      EmitKeepsOutput(m, r, Advance(r, p, c.start + c.count).(status := Running), p.token);
    }
  }

  lemma ChunkPass(cfg: Config, m: Model, e: State, i: nat, c: Slice) returns (p: Pass, more: seq<nat>)
    requires cfg.bs > 0 && Safe(cfg, m, e) && i < |e.running| && ChunkReady(Some(e.running[i]), c)
    requires CostOf(cfg, Some(e.running[i]), c.start + c.count) <= |e.pool.free|
    ensures var r := e.running[i];
      && c.start + c.count <= |r.PrefillTokens()| && c.start == r.computed && |ChunkFeed(r, c)| == c.count
      && Forward(cfg, m, e, r, c.start, ChunkFeed(r, c)) == Some(p)
      && Feedable(cfg, e, i, ChunkFeed(r, c)) && Passed(cfg, m, e, i, ChunkFeed(r, c), p, more)
  {
    var r := e.running[i];
    Member(cfg, m, e, i);
    ChunkFeedable(cfg, e, i, c);
    ChunkFeedIs(r, c);
    assert c.start == r.computed;
    hide *;
    p, more := PassResult(cfg, m, e, i, ChunkFeed(r, c));
  }

  lemma ChunkCommit(cfg: Config, m: Model, e: State, i: nat, c: Slice, p: Pass, more: seq<nat>)
    requires cfg.bs > 0 && Safe(cfg, m, e) && i < |e.running| && ChunkReady(Some(e.running[i]), c)
    requires c.start + c.count <= |e.running[i].PrefillTokens()|
    requires c.start == e.running[i].computed && |ChunkFeed(e.running[i], c)| == c.count
    requires Feedable(cfg, e, i, ChunkFeed(e.running[i], c))
    requires Passed(cfg, m, e, i, ChunkFeed(e.running[i], c), p, more)
    ensures Safe(cfg, m, Commit(e, i, p, AfterChunk(e.running[i], c, p)))
  {
    hide *;
    Member(cfg, m, e, i);
    RunningParts(cfg, e.running[i]);
    AfterChunkOk(cfg, m, e, i, c, p, more);
    PassSafe(cfg, m, e, i, ChunkFeed(e.running[i], c), p, more, AfterChunk(e.running[i], c, p));
  }

  lemma FreeAfter(cfg: Config, m: Model, e: State, i: nat, toks: seq<Token>, p: Pass, more: seq<nat>)
    requires cfg.bs > 0 && Feedable(cfg, e, i, toks) && Passed(cfg, m, e, i, toks, p, more)
    ensures |p.store.pool.free| == |e.pool.free| - Need(cfg, e.running[i], e.running[i].computed + |toks|)
  {
    hide WroteOwn;
  }

  lemma Member(cfg: Config, m: Model, e: State, i: nat)
    requires Safe(cfg, m, e) && i < |e.running|
    ensures MemoryOk(cfg, e) && RunningOk(cfg, e.running[i]) && OutputOk(m, e.running[i])
    ensures PrivateOk(e, e.running[i]) && AdoptedOk(cfg, e, e.running[i]) && ViewOk(cfg, m, e, e.running[i])
  {
    hide MemoryOk, RunningOk, OutputOk, PrivateOk, AdoptedOk, ViewOk;
    RunningIsQueued(e, i);
  }

  // ---- the rest of the plan

  /** r' is a later record of the same request. */
  ghost predicate Grew(r: Req, r': Req) {
    && r'.id == r.id && r'.prompt == r.prompt && r'.maxTokens == r.maxTokens && r'.ignoreEos == r.ignoreEos
    && r.output <= r'.output && r.computed <= r'.computed
    && (r'.status == Prefill ==> r.status == Prefill)
  }

  lemma FirstChunk(cfg: Config, e: State, decodes: seq<nat>, chunks: seq<Slice>)
    requires cfg.bs > 0 && chunks != [] && Executable(cfg, e, decodes, chunks)
    ensures var c, i := chunks[0], Find(e.running, chunks[0].id);
      && i < |e.running| && e.running[i].id == c.id && ChunkReady(Some(e.running[i]), c)
      && CostOf(cfg, Some(e.running[i]), c.start + c.count) <= |e.pool.free|
      && c.start == e.running[i].computed && c.count > 0
  {
    hide CostOf, DecodeCost;
    assert chunks[0] in chunks;
    GetIs(e.running, chunks[0].id);
  }

  /** No other item belongs to the request of the first chunk. */
  lemma OthersDiffer(q: seq<Req>, decodes: seq<nat>, chunks: seq<Slice>)
    requires chunks != [] && ItemsOk(q, decodes, chunks)
    ensures chunks[0].id !in decodes
    ensures forall c :: c in chunks[1..] ==> c.id != chunks[0].id
    ensures ItemsOk(q, decodes, chunks[1..])
  {
    hide Get;
    assert chunks[0] in chunks;
    forall c | c in chunks[1..]
      ensures c.id != chunks[0].id && c in chunks
    {
      var j :| 0 <= j < |chunks[1..]| && chunks[1..][j] == c;
      assert chunks[j + 1] == c;
    }
    hide ChunkReady;
  }

  lemma RestExecutable(cfg: Config, e: State, e': State, i: nat, r': Req, decodes: seq<nat>, chunks: seq<Slice>)
    requires cfg.bs > 0 && chunks != [] && Executable(cfg, e, decodes, chunks)
    requires i == Find(e.running, chunks[0].id) && Advanced(e, e', i, r')
    requires |e'.pool.free| == |e.pool.free| - CostOf(cfg, Some(e.running[i]), chunks[0].start + chunks[0].count)
    ensures Executable(cfg, e', decodes, chunks[1..])
  {
    hide CostOf, ItemsOk, DecodeCost;
    OthersDiffer(e.running, decodes, chunks);
    GetIs(e.running, chunks[0].id);
    OthersKeepCosts(cfg, e, e', i, r', decodes, chunks[1..]);
    hide Get;
  }

  lemma AfterChunkGrew(r: Req, c: Slice, p: Pass)
    requires ChunkReady(Some(r), c)
    ensures Grew(r, AfterChunk(r, c, p)) && AfterChunk(r, c, p).computed == c.start + c.count
    ensures AfterChunk(r, c, p).status == Prefill <==> !c.final
  {
  }

  lemma ExecChunkIs(cfg: Config, m: Model, e: State, c: Slice, i: nat, p: Pass)
    requires i == Find(e.running, c.id) && i < |e.running|
    requires c.start + c.count <= |e.running[i].PrefillTokens()|
    requires Forward(cfg, m, e, e.running[i], c.start, ChunkFeed(e.running[i], c)) == Some(p)
    ensures ExecChunk(cfg, m, e, c) == Some(Commit(e, i, p, AfterChunk(e.running[i], c, p)))
  {
    hide Forward, Commit;
  }

  lemma CommitAdvances(e: State, i: nat, p: Pass, r': Req)
    requires i < |e.running| && r'.id == e.running[i].id
    ensures Advanced(e, Commit(e, i, p, r'), i, r')
    ensures Commit(e, i, p, r').pool == p.store.pool
  {
  }

  /** One chunk of an executable plan runs and leaves the rest executable. */
  lemma ChunkRuns(cfg: Config, m: Model, e: State, decodes: seq<nat>, chunks: seq<Slice>) returns (e': State, r': Req)
    requires cfg.bs > 0 && Safe(cfg, m, e) && chunks != [] && Executable(cfg, e, decodes, chunks)
    ensures ExecChunk(cfg, m, e, chunks[0]) == Some(e')
    ensures Safe(cfg, m, e') && Executable(cfg, e', decodes, chunks[1..])
    ensures var i := Find(e.running, chunks[0].id);
      && i < |e.running| && Advanced(e, e', i, r') && Grew(e.running[i], r')
      && r'.computed == chunks[0].start + chunks[0].count && r'.computed > e.running[i].computed
      && (r'.status == Prefill <==> !chunks[0].final)
  {
    hide *;
    var c, i := chunks[0], Find(e.running, chunks[0].id);
    FirstChunk(cfg, e, decodes, chunks);
    var p, more := ChunkPass(cfg, m, e, i, c);
    ChunkCommit(cfg, m, e, i, c, p, more);
    FreeAfter(cfg, m, e, i, ChunkFeed(e.running[i], c), p, more);
    r' := AfterChunk(e.running[i], c, p);
    e' := Commit(e, i, p, r');
    AfterChunkGrew(e.running[i], c, p);
    GrewId(e.running[i], r');
    ExecChunkIs(cfg, m, e, c, i, p);
    CommitAdvances(e, i, p, r');
    CostOfSome(cfg, e.running[i], c.start + c.count);
    RestExecutable(cfg, e, e', i, r', decodes, chunks);
  }

  lemma GrewId(r: Req, r': Req)
    requires Grew(r, r')
    ensures r'.id == r.id
  {
  }

  lemma CostOfSome(cfg: Config, r: Req, total: nat)
    requires cfg.bs > 0
    ensures CostOf(cfg, Some(r), total) == Need(cfg, r, total)
  {
  }

  // ---- a decode

  function AfterDecode(r: Req, p: Pass): Req { Advance(r, p, r.computed + 1).Emit(p.token) }

  lemma DecodeFeed(cfg: Config, e: State, i: nat)
    requires cfg.bs > 0 && i < |e.running| && RunningOk(cfg, e.running[i]) && e.running[i].status == Running
    requires Need(cfg, e.running[i], e.running[i].computed + 1) <= |e.pool.free|
    ensures Feedable(cfg, e, i, [e.running[i].LastToken()])
    ensures e.running[i].AllTokens()[..e.running[i].computed + 1] == e.running[i].AllTokens()
  {
    var r := e.running[i];
    assert r.AllTokens()[r.computed..r.computed + 1] == [r.LastToken()];
    hide BlocksNeeded;
  }

  lemma AfterDecodeFed(r: Req, p: Pass)
    ensures Fed(r, AfterDecode(r, p), p.table, r.computed + 1)
    ensures r.status == Running ==> Grew(r, AfterDecode(r, p)) && AfterDecode(r, p).computed == r.computed + 1
    ensures r.status == Running ==> AfterDecode(r, p).status == Running || AfterDecode(r, p).status == Finished
  {
  }

  lemma AfterDecodeOk(cfg: Config, m: Model, e: State, i: nat, p: Pass, more: seq<nat>)
    requires cfg.bs > 0 && i < |e.running| && RunningOk(cfg, e.running[i]) && e.running[i].status == Running
    requires OutputOk(m, e.running[i]) && Feedable(cfg, e, i, [e.running[i].LastToken()])
    requires e.running[i].AllTokens()[..e.running[i].computed + 1] == e.running[i].AllTokens()
    requires Passed(cfg, m, e, i, [e.running[i].LastToken()], p, more)
    ensures RunningOk(cfg, AfterDecode(e.running[i], p)) && OutputOk(m, AfterDecode(e.running[i], p))
  {
    hide *;
    var r, r' := e.running[i], AfterDecode(e.running[i], p);
    AfterDecodeFed(r, p);
    RunningParts(cfg, r);
    FedPages(cfg, e, i, [r.LastToken()], m, p, more, r');
    AfterDecodeRunning(cfg, r, p);
    PassedToken(cfg, m, e, i, [r.LastToken()], p, more);
    DecodeOutput(m, r, p);
  }

  lemma PassedToken(cfg: Config, m: Model, e: State, i: nat, toks: seq<Token>, p: Pass, more: seq<nat>)
    requires cfg.bs > 0 && Feedable(cfg, e, i, toks) && Passed(cfg, m, e, i, toks, p, more)
    ensures e.running[i].computed + |toks| <= |e.running[i].AllTokens()|
    ensures e.running[i].AllTokens()[..e.running[i].computed + |toks|] != []
    ensures p.token == NextToken(m, e.running[i].AllTokens()[..e.running[i].computed + |toks|])
  {
    hide TookPlanned, WroteOwn, NextToken;
  }

  lemma AfterDecodeRunning(cfg: Config, r: Req, p: Pass)
    requires RunningOk(cfg, r) && r.status == Running && PagedOk(cfg, AfterDecode(r, p))
    ensures RunningOk(cfg, AfterDecode(r, p))
  {
    hide PagedOk;
  }

  lemma DecodeOutput(m: Model, r: Req, p: Pass)
    requires r.prompt != [] && OutputOk(m, r) && r.status == Running && |r.output| < r.maxTokens
    requires p.token == NextToken(m, r.AllTokens())
    ensures OutputOk(m, AfterDecode(r, p))
  {
    hide OutputOk, NextToken;
    EmitKeepsOutput(m, r, Advance(r, p, r.computed + 1), p.token);
  }

  lemma DecodePass(cfg: Config, m: Model, e: State, i: nat) returns (p: Pass, more: seq<nat>)
    requires cfg.bs > 0 && Safe(cfg, m, e) && i < |e.running| && e.running[i].status == Running
    requires Need(cfg, e.running[i], e.running[i].computed + 1) <= |e.pool.free|
    ensures e.running[i].prompt != [] && e.running[i].kv.Some?
    ensures Forward(cfg, m, e, e.running[i], e.running[i].computed, [e.running[i].LastToken()]) == Some(p)
    ensures |p.store.pool.free| == |e.pool.free| - Need(cfg, e.running[i], e.running[i].computed + 1)
    ensures Safe(cfg, m, Commit(e, i, p, AfterDecode(e.running[i], p)))
  {
    hide *;
    var r := e.running[i];
    Member(cfg, m, e, i);
    RunningParts(cfg, r);
    DecodeFeed(cfg, e, i);
    p, more := PassResult(cfg, m, e, i, [r.LastToken()]);
    FreeAfter(cfg, m, e, i, [r.LastToken()], p, more);
    AfterDecodeOk(cfg, m, e, i, p, more);
    AfterDecodeFed(r, p);
    PassSafe(cfg, m, e, i, [r.LastToken()], p, more, AfterDecode(r, p));
  }

  lemma FirstDecode(cfg: Config, e: State, ids: seq<nat>)
    requires cfg.bs > 0 && ids != [] && Executable(cfg, e, ids, [])
    ensures var i := Find(e.running, ids[0]);
      && i < |e.running| && e.running[i].id == ids[0] && e.running[i].status == Running
      && Need(cfg, e.running[i], e.running[i].computed + 1) <= |e.pool.free|
  {
    hide Need, ChunkReady;
    assert ids[0] in ids;
    GetIs(e.running, ids[0]);
  }

  lemma RestDecodes(cfg: Config, e: State, e': State, i: nat, r': Req, ids: seq<nat>)
    requires cfg.bs > 0 && ids != [] && Executable(cfg, e, ids, [])
    requires i == Find(e.running, ids[0]) && Advanced(e, e', i, r')
    requires |e'.pool.free| == |e.pool.free| - Need(cfg, e.running[i], e.running[i].computed + 1)
    ensures Executable(cfg, e', ids[1..], [])
  {
    hide Need, ChunkReady, ChunkCost;
    GetIs(e.running, ids[0]);
    assert forall id :: id in ids[1..] ==> id in ids && id != ids[0];
    OthersKeepCosts(cfg, e, e', i, r', ids[1..], []);
    hide Get, ItemsOk;
  }

  lemma ExecDecodeIs(cfg: Config, m: Model, e: State, id: nat, i: nat, p: Pass)
    requires i == Find(e.running, id) && i < |e.running|
    requires e.running[i].kv.Some? && e.running[i].status == Running && e.running[i].prompt != []
    requires Forward(cfg, m, e, e.running[i], e.running[i].computed, [e.running[i].LastToken()]) == Some(p)
    ensures ExecDecode(cfg, m, e, id) == Some(Commit(e, i, p, AfterDecode(e.running[i], p)))
  {
    hide Forward, Commit;
  }

  /** One decode of an executable plan runs and leaves the rest executable. */
  lemma DecodeRuns(cfg: Config, m: Model, e: State, ids: seq<nat>) returns (e': State, r': Req)
    requires cfg.bs > 0 && Safe(cfg, m, e) && ids != [] && Executable(cfg, e, ids, [])
    ensures ExecDecode(cfg, m, e, ids[0]) == Some(e')
    ensures Safe(cfg, m, e') && Executable(cfg, e', ids[1..], [])
    ensures var i := Find(e.running, ids[0]);
      && i < |e.running| && Advanced(e, e', i, r') && Grew(e.running[i], r')
      && r'.computed == e.running[i].computed + 1
      && (r'.status == Running || r'.status == Finished)
  {
    hide *;
    var i := Find(e.running, ids[0]);
    FirstDecode(cfg, e, ids);
    var p, more := DecodePass(cfg, m, e, i);
    r' := AfterDecode(e.running[i], p);
    e' := Commit(e, i, p, r');
    AfterDecodeFed(e.running[i], p);
    GrewId(e.running[i], r');
    ExecDecodeIs(cfg, m, e, ids[0], i, p);
    CommitAdvances(e, i, p, r');
    RestDecodes(cfg, e, e', i, r', ids);
  }

  // ---- the whole plan

  /** e' is e some passes later: the same queues, every record a later record of the same request. */
  ghost predicate Evolved(e: State, e': State) {
    && |e'.running| == |e.running|
    && (forall i :: 0 <= i < |e.running| ==> Grew(e.running[i], e'.running[i]))
    && e'.waiting == e.waiting && e'.done == e.done && e'.nextId == e.nextId && e'.tree == e.tree
  }

  /** The request has more computed than before; after its last slice it is no longer prefilling. */
  ghost predicate Fulfilled(e: State, e': State, id: nat, leaves: bool) {
    var i := Find(e.running, id);
    && i < |e.running| && i < |e'.running|
    && e'.running[i].computed > e.running[i].computed
    && (leaves ==> e'.running[i].status != Prefill)
  }

  ghost predicate AllFulfilled(e: State, e': State, decodes: seq<nat>, chunks: seq<Slice>) {
    && (forall id :: id in decodes ==> Fulfilled(e, e', id, true))
    && (forall c :: c in chunks ==> Fulfilled(e, e', c.id, c.final))
  }

  lemma EvolvedAfter(e: State, e1: State, e': State, i: nat, r': Req)
    requires i < |e.running| && Advanced(e, e1, i, r') && Grew(e.running[i], r') && Evolved(e1, e')
    ensures Evolved(e, e')
  {
    forall j | 0 <= j < |e.running|
      ensures Grew(e.running[j], e'.running[j])
    {
      assert Grew(e.running[j], e1.running[j]);
      assert Grew(e1.running[j], e'.running[j]);
    }
  }

  lemma FulfilledFirst(e: State, e1: State, e': State, i: nat, r': Req, id: nat, leaves: bool)
    requires i == Find(e.running, id) && i < |e.running| && Advanced(e, e1, i, r') && Evolved(e1, e')
    requires r'.computed > e.running[i].computed && (leaves ==> r'.status != Prefill)
    ensures Fulfilled(e, e', id, leaves)
  {
    assert Grew(e1.running[i], e'.running[i]);
  }

  lemma FulfilledLater(e: State, e1: State, e': State, i: nat, r': Req, id: nat, leaves: bool)
    requires i < |e.running| && Advanced(e, e1, i, r') && Grew(e.running[i], r') && Fulfilled(e1, e', id, leaves)
    ensures Fulfilled(e, e', id, leaves)
  {
    FindUpdated(e.running, i, r', id);
  }

  lemma EvolvedSame(e: State)
    ensures Evolved(e, e)
  {
  }

  lemma {:induction false} DecodesRun(cfg: Config, m: Model, e: State, ids: seq<nat>) returns (e': State)
    requires cfg.bs > 0 && Safe(cfg, m, e) && Executable(cfg, e, ids, [])
    ensures ExecDecodes(cfg, m, e, ids) == Some(e')
    ensures Safe(cfg, m, e') && Evolved(e, e')
    ensures forall id :: id in ids ==> Fulfilled(e, e', id, true)
    decreases |ids|
  {
    hide Safe, Executable, Evolved, Fulfilled, ExecDecode, Advanced, Grew, Find;
    if ids == [] {
      e' := e;
      EvolvedSame(e);
    } else {
      var i := Find(e.running, ids[0]);
      var e1, r' := DecodeRuns(cfg, m, e, ids);
      e' := DecodesRun(cfg, m, e1, ids[1..]);
      EvolvedAfter(e, e1, e', i, r');
      FulfilledFirst(e, e1, e', i, r', ids[0], true);
      forall id | id in ids
        ensures Fulfilled(e, e', id, true)
      {
        if id != ids[0] {
          assert id in ids[1..];
          FulfilledLater(e, e1, e', i, r', id, true);
        }
      }
    }
  }

  lemma {:induction false} ChunksRun(cfg: Config, m: Model, e: State, decodes: seq<nat>,
                                     chunks: seq<Slice>) returns (e': State)
    requires cfg.bs > 0 && Safe(cfg, m, e) && Executable(cfg, e, decodes, chunks)
    ensures ExecChunks(cfg, m, e, chunks) == Some(e')
    ensures Safe(cfg, m, e') && Evolved(e, e') && Executable(cfg, e', decodes, [])
    ensures forall c :: c in chunks ==> Fulfilled(e, e', c.id, c.final)
    decreases |chunks|
  {
    hide Safe, Executable, Evolved, Fulfilled, ExecChunk, Advanced, Grew, Find;
    if chunks == [] {
      e' := e;
      EvolvedSame(e);
    } else {
      var c := chunks[0];
      var i := Find(e.running, c.id);
      var e1, r' := ChunkRuns(cfg, m, e, decodes, chunks);
      e' := ChunksRun(cfg, m, e1, decodes, chunks[1..]);
      EvolvedAfter(e, e1, e', i, r');
      FulfilledFirst(e, e1, e', i, r', c.id, c.final);
      forall d | d in chunks
        ensures Fulfilled(e, e', d.id, d.final)
      {
        if d != c {
          assert d in chunks[1..];
          FulfilledLater(e, e1, e', i, r', d.id, d.final);
        }
      }
    }
  }

  lemma EvolvedTwice(e: State, e1: State, e2: State)
    requires Evolved(e, e1) && Evolved(e1, e2)
    ensures Evolved(e, e2)
  {
    forall j | 0 <= j < |e.running|
      ensures Grew(e.running[j], e2.running[j])
    {
      assert Grew(e.running[j], e1.running[j]) && Grew(e1.running[j], e2.running[j]);
    }
  }

  lemma {:induction false} EvolvedFind(q: seq<Req>, q': seq<Req>, id: nat)
    requires |q'| == |q| && forall i :: 0 <= i < |q| ==> q'[i].id == q[i].id
    ensures Find(q', id) == Find(q, id)
    decreases |q|
  {
    if q != [] {
      EvolvedFind(q[1..], q'[1..], id);
    }
  }

  lemma FulfilledKept(e: State, e1: State, e2: State, id: nat, leaves: bool)
    requires Evolved(e, e1) && Evolved(e1, e2)
    requires Fulfilled(e, e1, id, leaves) || Fulfilled(e1, e2, id, leaves)
    ensures Fulfilled(e, e2, id, leaves)
  {
    forall j | 0 <= j < |e.running|
      ensures e1.running[j].id == e.running[j].id
    {
      assert Grew(e.running[j], e1.running[j]);
    }
    EvolvedFind(e.running, e1.running, id);
    var i := Find(e.running, id);
    assert Grew(e.running[i], e1.running[i]) && Grew(e1.running[i], e2.running[i]);
  }

  /** An executable plan runs to its end without an exception, keeps the invariant, and advances everyone in it. */
  lemma PlanRuns(cfg: Config, m: Model, e: State, decodes: seq<nat>, chunks: seq<Slice>) returns (e1: State, e2: State)
    requires cfg.bs > 0 && Safe(cfg, m, e) && Executable(cfg, e, decodes, chunks)
    ensures ExecChunks(cfg, m, e, chunks) == Some(e1) && ExecDecodes(cfg, m, e1, decodes) == Some(e2)
    ensures Safe(cfg, m, e2) && Evolved(e, e2) && AllFulfilled(e, e2, decodes, chunks)
  {
    hide Safe, Executable, Evolved, Fulfilled, ExecChunks, ExecDecodes;
    e1 := ChunksRun(cfg, m, e, decodes, chunks);
    e2 := DecodesRun(cfg, m, e1, decodes);
    EvolvedTwice(e, e1, e2);
    forall id | id in decodes
      ensures Fulfilled(e, e2, id, true)
    {
      FulfilledKept(e, e1, e2, id, true);
    }
    forall c | c in chunks
      ensures Fulfilled(e, e2, c.id, c.final)
    {
      FulfilledKept(e, e1, e2, c.id, c.final);
    }
  }
}
