/**
 The engine's step with the transformer's layer loops in it: prefill chunks layer by
 layer, and all decodes in one batched pass. It does exactly what the step does that
 feeds its requests token by token, one after the other, so what is proved of runs
 holds of the layered model.
 */
module LayeredEngine {
  import opened Options
  import opened Blocks
  import opened Decoding
  import opened Paging
  import opened PrivateWrites
  import opened BatchWrites
  import opened Radix
  import opened Requests
  import opened Scheduling
  import opened Serving
  import opened PagedForward
  import opened Transformer
  import opened BatchedDecode
  import opened Safety
  import opened SafetyPlan
  import opened SafetySchedule
  import opened SafetyFeed
  import opened SafetyExec
  import opened Runs
  import opened Conservation
  import Outcomes = Batch

  // ---- every position has one cell per layer, in every reachable state

  lemma {:induction false} ExtendLayered<X>(net: Net<X>, view: seq<Column>, toks: seq<Token>)
    requires |net.blank| == net.layers
    ensures Layered(Extend(AsModel(net), view, toks)[|view|..], net.layers)
    decreases |toks|
  {
    if toks != [] {
      var m := AsModel(net);
      var next := view + [m.col(view, toks[0])];
      ExtendLayered(net, next, toks[1..]);
      ExtendKeeps(m, next, toks[1..]);
      var cols := Extend(m, next, toks[1..]);
      assert cols[..|next|] == next;
      assert |m.col(view, toks[0])| == net.layers;
      hide Extend, TokenColumn;
      forall p | 0 <= p < |cols[|view|..]|
        ensures |cols[|view|..][p]| == net.layers
      {
        if p == 0 {
          assert cols[|view|] == cols[..|next|][|view|] == next[|view|];
        } else {
          assert cols[|view|..][p] == cols[|next|..][p - 1];
        }
      }
    }
  }

  lemma {:induction false} ExtendKeeps(m: Model, view: seq<Column>, toks: seq<Token>)
    ensures Extend(m, view, toks)[..|view|] == view
    decreases |toks|
  {
    if toks != [] {
      var next := view + [m.col(view, toks[0])];
      ExtendKeeps(m, next, toks[1..]);
      assert Extend(m, view, toks)[..|view|] == Extend(m, next, toks[1..])[..|next|][..|view|];
    }
  }

  lemma WriteLayered(bs: nat, st: Store, table: seq<nat>, start: nat, cols: seq<Column>, layers: nat)
    requires Shaped(bs, st) && FreeListOk(st.pool) && InRange(st, table) && StoreLayered(st, layers)
    requires Layered(cols, layers)
    requires Write(bs, st, table, start, cols).Written?
    ensures StoreLayered(Write(bs, st, table, start, cols).store, layers)
  {
    if cols != [] {
      EnsureCapacityShape(bs, st, table, start + |cols|);
      var g := EnsureCapacity(bs, st, table, start + |cols|);
      hide Shaped, FreeListOk, InRange, EnsureCapacity, WriteFrom, StoreLayered, Layered;
      SameMemLayered(st, g.store, layers);
      WriteFromLayered(bs, g.store, g.table, start, cols, layers);
    }
  }

  lemma InferLayered<X>(bs: nat, net: Net<X>, st: Store, table: seq<nat>, start: nat, toks: seq<Token>)
    requires |net.blank| == net.layers && StoreLayered(st, net.layers)
    requires Infer(bs, AsModel(net), st, table, start, toks).Some?
    ensures StoreLayered(Infer(bs, AsModel(net), st, table, start, toks).value.store, net.layers)
  {
    hide Shaped, FreeListOk, InRange, EnsureCapacity, Write, StoreLayered, Extend, Gather, AsModel, Layered;
    EnsureCapacityShape(bs, st, table, start + |toks|);
    var g := EnsureCapacity(bs, st, table, start + |toks|);
    var view := Gather(bs, g.store, g.table, start);
    ExtendLayered(net, view, toks);
    WriteLayered(bs, st, table, start, Extend(AsModel(net), view, toks)[start..], net.layers);
  }

  ghost predicate LayeredState<X>(net: Net<X>, e: State) { StoreLayered(StoreOf(e), net.layers) }

  lemma SameMemState<X>(net: Net<X>, e: State, e': State)
    requires LayeredState(net, e) && e'.mem == e.mem
    ensures LayeredState(net, e')
  {
  }

  lemma ChunkLayered<X>(cfg: Config, net: Net<X>, e: State, c: Slice)
    requires |net.blank| == net.layers && LayeredState(net, e) && ExecChunk(cfg, AsModel(net), e, c).Some?
    ensures LayeredState(net, ExecChunk(cfg, AsModel(net), e, c).value)
  {
    hide Infer, StoreLayered, AsModel;
    var r := e.running[Find(e.running, c.id)];
    InferLayered(cfg.bs, net, StoreOf(e), r.Table(), c.start, r.PrefillTokens()[c.start..c.start + c.count]);
    var p := Forward(cfg, AsModel(net), e, r, c.start, r.PrefillTokens()[c.start..c.start + c.count]).value;
    assert StoreOf(ExecChunk(cfg, AsModel(net), e, c).value) == p.store;
  }

  lemma DecodeLayered<X>(cfg: Config, net: Net<X>, e: State, id: nat)
    requires |net.blank| == net.layers && LayeredState(net, e) && ExecDecode(cfg, AsModel(net), e, id).Some?
    ensures LayeredState(net, ExecDecode(cfg, AsModel(net), e, id).value)
  {
    hide Infer, StoreLayered, AsModel;
    var i, e' := Find(e.running, id), ExecDecode(cfg, AsModel(net), e, id).value;
    if e' != e {
      var r := e.running[i];
      InferLayered(cfg.bs, net, StoreOf(e), r.Table(), r.computed, [r.LastToken()]);
      var p := Forward(cfg, AsModel(net), e, r, r.computed, [r.LastToken()]).value;
      assert StoreOf(e') == p.store;
    }
  }

  lemma {:induction false} ChunksLayered<X>(cfg: Config, net: Net<X>, e: State, cs: seq<Slice>)
    requires |net.blank| == net.layers && LayeredState(net, e) && ExecChunks(cfg, AsModel(net), e, cs).Some?
    ensures LayeredState(net, ExecChunks(cfg, AsModel(net), e, cs).value)
    decreases |cs|
  {
    hide ExecChunk, LayeredState, AsModel;
    if cs != [] {
      ChunkLayered(cfg, net, e, cs[0]);
      ChunksLayered(cfg, net, ExecChunk(cfg, AsModel(net), e, cs[0]).value, cs[1..]);
    }
  }

  lemma {:induction false} DecodesLayered<X>(cfg: Config, net: Net<X>, e: State, ids: seq<nat>)
    requires |net.blank| == net.layers && LayeredState(net, e) && ExecDecodes(cfg, AsModel(net), e, ids).Some?
    ensures LayeredState(net, ExecDecodes(cfg, AsModel(net), e, ids).value)
    decreases |ids|
  {
    hide ExecDecode, LayeredState, AsModel;
    if ids != [] {
      DecodeLayered(cfg, net, e, ids[0]);
      DecodesLayered(cfg, net, ExecDecode(cfg, AsModel(net), e, ids[0]).value, ids[1..]);
    }
  }

  lemma {:induction false} RetireMem(cfg: Config, e: State, i: nat)
    requires cfg.bs > 0 && i <= |e.running|
    ensures RetireFrom(cfg, e, i).mem == e.mem
    decreases |e.running| - i
  {
    if i < |e.running| {
      RetireConserves(cfg, e, i);
      assert Retire(cfg, e, i).mem == e.mem by { hide Insert; }
      hide Retire;
      if e.running[i].IsFinished() {
        RetireMem(cfg, Retire(cfg, e, i), i);
      } else {
        RetireMem(cfg, e, i + 1);
      }
    }
  }

  lemma StepLayered<X>(cfg: Config, net: Net<X>, e: State)
    requires cfg.bs > 0 && |net.blank| == net.layers && LayeredState(net, e) && Step(cfg, AsModel(net), e).Some?
    ensures LayeredState(net, Schedule(cfg, e).st) && LayeredState(net, Step(cfg, AsModel(net), e).value)
  {
    hide Schedule, ExecChunks, ExecDecodes, RetireFrom, LayeredState, AsModel;
    var w := Schedule(cfg, e);
    Outcomes.ScheduleDone(cfg, e);
    SameMemState(net, e, w.st);
    if !Empty(w) {
      ChunksLayered(cfg, net, w.st, w.chunks);
      var e1 := ExecChunks(cfg, AsModel(net), w.st, w.chunks).value;
      DecodesLayered(cfg, net, e1, w.decodes);
      var e2 := ExecDecodes(cfg, AsModel(net), e1, w.decodes).value;
      RetireMem(cfg, e2, 0);
      SameMemState(net, e2, RetireFrom(cfg, e2, 0));
    }
  }

  /** In every state of every run each position of the pool holds one cell per layer. */
  lemma {:induction false} RunLayered<X>(cfg: Config, net: Net<X>, events: seq<Event>)
    requires cfg.bs > 0 && |net.blank| == net.layers && Run(cfg, AsModel(net), events).Some?
    ensures LayeredState(net, Run(cfg, AsModel(net), events).value)
    decreases |events|
  {
    hide Step, Abort;
    if events == [] {
    } else {
      hide LayeredState, AsModel;
      var before, last := events[..|events| - 1], events[|events| - 1];
      RunLayered(cfg, net, before);
      var e := Run(cfg, AsModel(net), before).value;
      match last
      case Add(prompt, maxTokens, ignoreEos) =>
        SameMemState(net, e, Submit(cfg, e, prompt, maxTokens, ignoreEos));
      case Cancel(id) =>
        AbortMem(e, id);
        SameMemState(net, e, Abort(e, id));
      case Tick =>
        StepLayered(cfg, net, e);
    }
  }

  lemma AbortMem(e: State, id: nat)
    ensures Abort(e, id).mem == e.mem
  {
  }

  // ---- prefill, layer by layer

  ghost function ViewOf(cfg: Config, e: State, r: Req): seq<Column>
    requires Shaped(cfg.bs, StoreOf(e)) && InRange(StoreOf(e), r.Table()) && r.computed <= |r.Table()| * cfg.bs
  {
    Gather(cfg.bs, StoreOf(e), r.Table(), r.computed)
  }

  /** A running request's store, table and view meet what a forward pass asks for. */
  lemma PassReady<X>(cfg: Config, net: Net<X>, e: State, i: nat, toks: seq<Token>)
    requires cfg.bs > 0 && Safe(cfg, AsModel(net), e) && LayeredState(net, e) && Feedable(cfg, e, i, toks)
    ensures i < |e.running| && i < |Queued(e)| && toks != []
    ensures var r, st := e.running[i], StoreOf(e);
      && Shaped(cfg.bs, st) && InRange(st, r.Table()) && r.computed <= |r.Table()| * cfg.bs
      && |ViewOf(cfg, e, r)| == r.computed
      && Progressed(cfg.bs, net, st, r.Table(), ViewOf(cfg, e, r), toks, 0)
      && FreeListOk(st.pool) && Counts(st.pool, multiset(r.Table()) + Others(e, i))
      && Exclusive(cfg.bs, st, r.Table(), r.computed, r.computed + |toks|, r.Adopted())
      && Forward(cfg, AsModel(net), e, r, r.computed, toks) ==
        Infer(cfg.bs, AsModel(net), st, r.Table(), r.computed, toks)
  {
    assert i < |e.running| && i < |Queued(e)|;
    hide *;
    var r := e.running[i];
    Member(cfg, AsModel(net), e, i);
    RunningIsQueued(e, i);
    PassStarts(cfg, e, i);
    PrivateRefs(cfg, e, r);
    FeedableIs(cfg, e, i, toks);
    RoomFor(cfg, e, i, toks);
    ViewReady(cfg, net, e, r, toks);
    ForwardInfers(cfg, AsModel(net), e, r, r.computed, toks);
  }

  lemma RoomFor(cfg: Config, e: State, i: nat, toks: seq<Token>)
    requires cfg.bs > 0 && Feedable(cfg, e, i, toks)
    requires PrivateFrom(e.pool, e.running[i].Table(), e.running[i].Adopted())
    ensures toks != []
    ensures var r := e.running[i];
      Exclusive(cfg.bs, StoreOf(e), r.Table(), r.computed, r.computed + |toks|, r.Adopted())
    ensures StoreOf(e).pool == e.pool
  {
    hide BlocksNeeded, PrivateFrom, FreeListOk;
  }

  lemma ViewReady<X>(cfg: Config, net: Net<X>, e: State, r: Req, toks: seq<Token>)
    requires Shaped(cfg.bs, StoreOf(e)) && InRange(StoreOf(e), r.Table()) && r.computed <= |r.Table()| * cfg.bs
    requires LayeredState(net, e)
    ensures |ViewOf(cfg, e, r)| == r.computed
    ensures Progressed(cfg.bs, net, StoreOf(e), r.Table(), ViewOf(cfg, e, r), toks, 0)
  {
    hide Shaped, InRange, StoreLayered, AsModel, Cols;
    LayeredView(cfg.bs, StoreOf(e), r.Table(), r.computed, net.layers);
    hide Gather;
  }

  /** One prefill chunk of an executable plan, layer by layer. */
  method ChunkByLayers<X>(cfg: Config, net: Net<X>, e: State, c: Slice, ghost decodes: seq<nat>,
                          ghost chunks: seq<Slice>)
    returns (e': State)
    requires cfg.bs > 0 && net.layers > 0 && Safe(cfg, AsModel(net), e) && LayeredState(net, e)
    requires Executable(cfg, e, decodes, chunks) && chunks != [] && chunks[0] == c
    ensures ExecChunk(cfg, AsModel(net), e, c) == Some(e')
  {
    hide *;
    var i := Find(e.running, c.id);
    FirstChunk(cfg, e, decodes, chunks);
    ghost var p, more := ChunkPass(cfg, AsModel(net), e, i, c);
    var r := e.running[i];
    var toks := ChunkFeed(r, c);
    PassReady(cfg, net, e, i, toks);
    var out := ForwardPrefill(cfg.bs, net, StoreOf(e), r.Table(), c.start, toks, ViewOf(cfg, e, r), Others(e, i),
      r.Adopted());
    var pass := Pass(out.value.0, out.value.1, out.value.2);
    ExecChunkIs(cfg, AsModel(net), e, c, i, pass);
    e' := Serving.Commit(e, i, pass, AfterChunk(r, c, pass));
  }

  /** The prefills of a plan, chunk by chunk. */
  method ChunksByLayers<X>(cfg: Config, net: Net<X>, e0: State, cs: seq<Slice>,
                           ghost decodes: seq<nat>) returns (e: State)
    requires cfg.bs > 0 && net.layers > 0 && |net.blank| == net.layers && Safe(cfg, AsModel(net), e0)
    requires LayeredState(net, e0)
    requires Executable(cfg, e0, decodes, cs)
    ensures ExecChunks(cfg, AsModel(net), e0, cs) == Some(e)
    ensures Safe(cfg, AsModel(net), e) && LayeredState(net, e) && Executable(cfg, e, decodes, [])
  {
    hide *;
    e := e0;
    NoChunksLeft(cfg, net, e0, cs);
    for k := 0 to |cs|
      invariant Safe(cfg, AsModel(net), e) && LayeredState(net, e) && Executable(cfg, e, decodes, cs[k..])
      invariant ExecChunks(cfg, AsModel(net), e0, cs) == ExecChunks(cfg, AsModel(net), e, cs[k..])
    {
      ghost var rest := cs[k..];
      assert rest[0] == cs[k] && rest[1..] == cs[k + 1..];
      ghost var next, r' := ChunkRuns(cfg, AsModel(net), e, decodes, rest);
      ChunkUnfold(cfg, net, e, rest);
      ChunkLayered(cfg, net, e, cs[k]);
      e := ChunkByLayers(cfg, net, e, cs[k], decodes, rest);
    }
    NoChunksLeft(cfg, net, e, cs);
  }

  lemma NoChunksLeft<X>(cfg: Config, net: Net<X>, e: State, cs: seq<Slice>)
    ensures cs[0..] == cs && cs[|cs|..] == [] && ExecChunks(cfg, AsModel(net), e, []) == Some(e)
  {
  }

  lemma ChunkUnfold<X>(cfg: Config, net: Net<X>, e: State, cs: seq<Slice>)
    requires cs != [] && ExecChunk(cfg, AsModel(net), e, cs[0]).Some?
    ensures ExecChunks(cfg, AsModel(net), e, cs) ==
      ExecChunks(cfg, AsModel(net), ExecChunk(cfg, AsModel(net), e, cs[0]).value, cs[1..])
  {
    hide ExecChunk, AsModel;
  }

  // ---- all decodes in one batch

  /** Where the requests of a batch run. */
  function Places(q: seq<Req>, ids: seq<nat>): (idx: seq<nat>)
    ensures |idx| == |ids|
  {
    seq(|ids|, c requires 0 <= c < |ids| => Find(q, ids[c]))
  }

  /** Each place is that of a running request past its prefill, and no two are the same. */
  ghost predicate Decodable(q: seq<Req>, ids: seq<nat>, idx: seq<nat>) {
    && |idx| == |ids|
    && (forall c :: 0 <= c < |idx| ==>
         && idx[c] < |q| && idx[c] == Find(q, ids[c]) && q[idx[c]].id == ids[c]
         && q[idx[c]].status == Running && q[idx[c]].kv.Some? && q[idx[c]].prompt != [])
    && forall c, d :: 0 <= c < d < |idx| ==> idx[c] != idx[d]
  }

  function TableAt(q: seq<Req>, i: nat): seq<nat> { if i < |q| then q[i].Table() else [] }

  function TablesAt(q: seq<Req>, idx: seq<nat>): (ts: seq<seq<nat>>)
    ensures |ts| == |idx|
  {
    seq(|idx|, c requires 0 <= c < |idx| => TableAt(q, idx[c]))
  }

  function LastTokens(q: seq<Req>, idx: seq<nat>): (ts: seq<Token>)
    ensures |ts| == |idx|
  {
    seq(|idx|, c requires 0 <= c < |idx| => if idx[c] < |q| && q[idx[c]].prompt != [] then q[idx[c]].LastToken() else 0)
  }

  function Positions(q: seq<Req>, idx: seq<nat>): (ps: seq<nat>)
    ensures |ps| == |idx|
  {
    seq(|idx|, c requires 0 <= c < |idx| => if idx[c] < |q| then q[idx[c]].computed else 0)
  }

  function AdoptedAt(q: seq<Req>, idx: seq<nat>): (ps: seq<nat>)
    ensures |ps| == |idx|
  {
    seq(|idx|, c requires 0 <= c < |idx| => if idx[c] < |q| then q[idx[c]].Adopted() else 0)
  }

  lemma PlacesAre(cfg: Config, m: Model, e: State, ids: seq<nat>)
    requires cfg.bs > 0 && Safe(cfg, m, e) && Executable(cfg, e, ids, [])
    ensures Decodable(e.running, ids, Places(e.running, ids))
  {
    var idx := Places(e.running, ids);
    hide Safe, DecodeCost, ChunkCost;
    forall c | 0 <= c < |idx|
      ensures idx[c] < |e.running| && e.running[idx[c]].id == ids[c] && e.running[idx[c]].status == Running
      ensures e.running[idx[c]].kv.Some? && e.running[idx[c]].prompt != []
    {
      assert ids[c] in ids;
      GetIs(e.running, ids[c]);
      Member(cfg, m, e, idx[c]);
      RunningParts(cfg, e.running[idx[c]]);
    }
  }

  /** Take the table of one request out of a queue's tables. */
  lemma Bared(q: seq<Req>, i: nat)
    requires i < |q|
    ensures Tables(q) == multiset(TableAt(q, i)) + Tables(q[i := q[i].(kv := None)])
  {
    TablesSplit(q, i);
    TablesUpdate(q, i, q[i].(kv := None));
    hide Tables;
  }

  ghost predicate Separate(idx: seq<nat>, n: nat) {
    && (forall c :: 0 <= c < |idx| ==> idx[c] < n)
    && forall c, d :: 0 <= c < d < |idx| ==> idx[c] != idx[d]
  }

  lemma BaredTables(q: seq<Req>, idx: seq<nat>, n: nat)
    requires n < |idx| && Separate(idx, |q|)
    ensures idx[n] < |q| && TablesAt(q[idx[n] := q[idx[n]].(kv := None)], idx[..n]) == TablesAt(q, idx[..n])
  {
  }

  lemma TablesSnoc(q: seq<Req>, idx: seq<nat>, n: nat)
    requires n < |idx|
    ensures All(TablesAt(q, idx[..n + 1])) == All(TablesAt(q, idx[..n])) + multiset(TableAt(q, idx[n]))
  {
    assert TablesAt(q, idx[..n + 1]) == TablesAt(q, idx[..n]) + [TableAt(q, idx[n])];
    AllConcat(TablesAt(q, idx[..n]), [TableAt(q, idx[n])]);
    AllOne(TableAt(q, idx[n]));
    hide All;
  }

  lemma AllOne(t: seq<nat>)
    ensures All([t]) == multiset(t)
  {
    assert [t][1..] == [];
  }

  /** The batch's tables are among the tables of the queue. */
  lemma {:induction false} TablesCover(q: seq<Req>, idx: seq<nat>, n: nat) returns (rest: multiset<nat>)
    requires n <= |idx| && Separate(idx, |q|)
    ensures Tables(q) == All(TablesAt(q, idx[..n])) + rest
    decreases n
  {
    hide *;
    if n == 0 {
      rest := Tables(q);
      NothingCovered(q, idx);
    } else {
      BaredTables(q, idx, n - 1);
      var i := idx[n - 1];
      Bared(q, i);
      TablesSnoc(q, idx, n - 1);
      rest := TablesCover(q[i := q[i].(kv := None)], idx, n - 1);
      Swapped(multiset(TableAt(q, i)), All(TablesAt(q, idx[..n - 1])), rest);
    }
  }

  lemma NothingCovered(q: seq<Req>, idx: seq<nat>)
    ensures Tables(q) == All(TablesAt(q, idx[..0])) + Tables(q)
  {
    assert TablesAt(q, idx[..0]) == [];
  }

  lemma Swapped(a: multiset<nat>, b: multiset<nat>, c: multiset<nat>)
    ensures a + (b + c) == (b + a) + c
  {
  }

  lemma CostAt(cfg: Config, q: seq<Req>, ids: seq<nat>, idx: seq<nat>, n: nat)
    requires cfg.bs > 0 && Decodable(q, ids, idx) && n < |ids|
    ensures n < |idx| && idx[n] < |q| && Get(q, ids[n]) == Some(q[idx[n]]) && ids[..n] + [ids[n]] == ids[..n + 1]
    ensures Need(cfg, q[idx[n]], q[idx[n]].computed + 1) ==
      BlocksNeeded(cfg.bs, TablesAt(q, idx)[n], Positions(q, idx)[n] + 1)
    ensures TotalNeed(cfg.bs, TablesAt(q, idx), Positions(q, idx), n + 1) ==
      TotalNeed(cfg.bs, TablesAt(q, idx), Positions(q, idx), n) + Need(cfg, q[idx[n]], q[idx[n]].computed + 1)
  {
    GetIs(q, ids[n]);
    hide BlocksNeeded;
  }

  lemma NoCost(cfg: Config, q: seq<Req>, ids: seq<nat>, idx: seq<nat>)
    requires cfg.bs > 0 && |idx| == |ids|
    ensures TotalNeed(cfg.bs, TablesAt(q, idx), Positions(q, idx), 0) == 0 == DecodeCost(cfg, q, ids[..0])
  {
  }

  lemma {:induction false} NeedIsCost(cfg: Config, q: seq<Req>, ids: seq<nat>, idx: seq<nat>, n: nat)
    requires cfg.bs > 0 && Decodable(q, ids, idx) && n <= |ids| == |idx|
    ensures TotalNeed(cfg.bs, TablesAt(q, idx), Positions(q, idx), n) == DecodeCost(cfg, q, ids[..n])
    decreases n
  {
    hide *;
    if n == 0 {
      NoCost(cfg, q, ids, idx);
    } else {
      CostAt(cfg, q, ids, idx, n - 1);
      NeedIsCost(cfg, q, ids, idx, n - 1);
      DecodeCostAppend(cfg, q, ids[..n - 1], ids[n - 1]);
    }
  }

  /** The batch an executable plan's decodes make. */
  function BatchAt(q: seq<Req>, idx: seq<nat>): Batch { Batch(TablesAt(q, idx), LastTokens(q, idx), Positions(q, idx)) }

  ghost predicate HasView(cfg: Config, e: State, i: nat) {
    && i < |e.running| && Shaped(cfg.bs, StoreOf(e)) && InRange(StoreOf(e), e.running[i].Table())
    && e.running[i].computed <= |e.running[i].Table()| * cfg.bs
  }

  ghost function ViewAt(cfg: Config, e: State, i: nat): seq<Column> {
    if HasView(cfg, e, i) then ViewOf(cfg, e, e.running[i]) else []
  }

  /** The views of the batch's sequences. */
  ghost function ViewsAt(cfg: Config, e: State, idx: seq<nat>): (views: seq<seq<Column>>)
    ensures |views| == |idx|
  {
    seq(|idx|, c requires 0 <= c < |idx| => ViewAt(cfg, e, idx[c]))
  }

  /** What a batched pass asks of sequence c. */
  ghost predicate Brings<X>(cfg: Config, net: Net<X>, e: State, idx: seq<nat>, c: nat) {
    var b := BatchAt(e.running, idx);
    && c < |idx| && idx[c] < |e.running| && HasView(cfg, e, idx[c])
    && InRange(StoreOf(e), b.tables[c])
    && b.positions[c] == |ViewsAt(cfg, e, idx)[c]| <= |b.tables[c]| * cfg.bs
    && PrivateFrom(e.pool, b.tables[c], AdoptedAt(e.running, idx)[c])
    && AdoptedAt(e.running, idx)[c] * cfg.bs <= b.positions[c]
    && Progressed(cfg.bs, net, StoreOf(e), b.tables[c], ViewsAt(cfg, e, idx)[c], [b.toks[c]], 0)
  }

  /** What sequence c of the batch brings. */
  lemma SequenceReady<X>(cfg: Config, net: Net<X>, e: State, ids: seq<nat>, idx: seq<nat>, c: nat)
    requires cfg.bs > 0 && Safe(cfg, AsModel(net), e) && LayeredState(net, e) && Decodable(e.running, ids, idx)
    requires c < |idx|
    ensures Brings(cfg, net, e, idx, c)
  {
    var i := idx[c];
    var r := e.running[i];
    Member(cfg, AsModel(net), e, i);
    RunningIsQueued(e, i);
    PassStarts(cfg, e, i);
    PrivateRefs(cfg, e, r);
    RunningParts(cfg, r);
    hide Safe, MemoryOk, RunningOk, PrivateOk, AdoptedOk, ViewOk, PrivateFrom, Held, Others, Counts, FreeListOk,
      Shaped, InRange,
      LayeredState, Progressed, AsModel, ViewOf;
    ViewReady(cfg, net, e, r, [r.LastToken()]);
  }

  /** The references the batch does not hold. */
  lemma BatchCounts(cfg: Config, m: Model, e: State, ids: seq<nat>, idx: seq<nat>) returns (rest: multiset<nat>)
    requires cfg.bs > 0 && Safe(cfg, m, e) && Decodable(e.running, ids, idx)
    ensures Counts(e.pool, All(TablesAt(e.running, idx)) + rest) && Kept(StoreOf(e), StoreOf(e), rest)
    ensures Shaped(cfg.bs, StoreOf(e)) && FreeListOk(e.pool)
  {
    SeparateAre(e.running, ids, idx);
    var more := TablesCover(e.running, idx, |idx|);
    TablesConcat(e.running, e.waiting);
    assert idx[..|idx|] == idx;
    SafeMemory(cfg, m, e);
    rest := more + Tables(e.waiting) + multiset(NodeBlocks(e.tree.nodes));
    HeldSplits(e, All(TablesAt(e.running, idx)), more);
    CountsKept(cfg, e, All(TablesAt(e.running, idx)), rest);
  }

  lemma SeparateAre(q: seq<Req>, ids: seq<nat>, idx: seq<nat>)
    requires Decodable(q, ids, idx)
    ensures Separate(idx, |q|)
  {
  }

  lemma SafeMemory(cfg: Config, m: Model, e: State)
    requires Safe(cfg, m, e)
    ensures Shaped(cfg.bs, StoreOf(e)) && FreeListOk(e.pool) && Counts(e.pool, Held(e))
  {
    hide ShapesOk, OwnershipOk, ViewsOk, NodesOk, OutputsOk, IdsOk, Counts, Shaped, FreeListOk, TreeOk;
  }

  lemma HeldSplits(e: State, mine: multiset<nat>, more: multiset<nat>)
    requires Tables(e.running) == mine + more && Tables(Queued(e)) == Tables(e.running) + Tables(e.waiting)
    ensures Held(e) == mine + (more + Tables(e.waiting) + multiset(NodeBlocks(e.tree.nodes)))
  {
    hide Tables, NodeBlocks;
  }

  lemma CountsKept(cfg: Config, e: State, mine: multiset<nat>, rest: multiset<nat>)
    requires Shaped(cfg.bs, StoreOf(e)) && Counts(e.pool, mine + rest)
    ensures Kept(StoreOf(e), StoreOf(e), rest)
  {
    assert forall b :: b in rest ==> b in mine + rest;
  }

  /** The batch of an executable plan is sound: own last blocks, and room for everybody. */
  lemma BatchReady<X>(cfg: Config, net: Net<X>, e: State, ids: seq<nat>, idx: seq<nat>, rest: multiset<nat>)
    requires cfg.bs > 0 && Safe(cfg, AsModel(net), e) && LayeredState(net, e) && Executable(cfg, e, ids, [])
    requires Decodable(e.running, ids, idx) && Shaped(cfg.bs, StoreOf(e)) && FreeListOk(e.pool)
    requires Counts(e.pool, All(TablesAt(e.running, idx)) + rest)
    ensures var b := BatchAt(e.running, idx);
      && |b.tables| == |b.toks| == |b.positions| == |idx|
      && Sound(cfg.bs, StoreOf(e), b.tables, b.positions, AdoptedAt(e.running, idx), rest)
  {
    RoomForAll(cfg, e, ids, idx);
    DecodableSize(e.running, ids, idx);
    hide *;
    forall c | 0 <= c < |idx|
      ensures Brings(cfg, net, e, idx, c)
    {
      SequenceReady(cfg, net, e, ids, idx, c);
    }
    SoundFrom(cfg, net, e, idx, rest);
  }

  lemma DecodableSize(q: seq<Req>, ids: seq<nat>, idx: seq<nat>)
    requires Decodable(q, ids, idx)
    ensures |idx| == |ids|
  {
  }

  lemma RoomForAll(cfg: Config, e: State, ids: seq<nat>, idx: seq<nat>)
    requires cfg.bs > 0 && Executable(cfg, e, ids, []) && Decodable(e.running, ids, idx)
    ensures TotalNeed(cfg.bs, TablesAt(e.running, idx), Positions(e.running, idx), |idx|) <= |e.pool.free|
  {
    NeedIsCost(cfg, e.running, ids, idx, |ids|);
    assert ids[..|ids|] == ids;
    hide DecodeCost, TotalNeed;
  }

  lemma SoundFrom<X>(cfg: Config, net: Net<X>, e: State, idx: seq<nat>, rest: multiset<nat>)
    requires cfg.bs > 0 && Shaped(cfg.bs, StoreOf(e)) && FreeListOk(e.pool)
    requires Counts(e.pool, All(TablesAt(e.running, idx)) + rest)
    requires TotalNeed(cfg.bs, TablesAt(e.running, idx), Positions(e.running, idx), |idx|) <= |e.pool.free|
    requires forall c :: 0 <= c < |idx| ==> Brings(cfg, net, e, idx, c)
    ensures var b := BatchAt(e.running, idx);
      && |b.tables| == |b.toks| == |b.positions| == |idx|
      && Sound(cfg.bs, StoreOf(e), b.tables, b.positions, AdoptedAt(e.running, idx), rest)
  {
    var b, from := BatchAt(e.running, idx), AdoptedAt(e.running, idx);
    hide PrivateFrom, Counts, FreeListOk, Shaped, InRange, TotalNeed, Progressed, All, TablesAt, Positions, AdoptedAt,
      LastTokens, ViewsAt, HasView;
    forall c | 0 <= c < |b.tables|
      ensures PrivateFrom(e.pool, b.tables[c], from[c]) && from[c] * cfg.bs <= b.positions[c]
      ensures InRange(StoreOf(e), b.tables[c]) && b.positions[c] <= |b.tables[c]| * cfg.bs
    {
      assert Brings(cfg, net, e, idx, c);
    }
    assert Ample(cfg.bs, StoreOf(e), b.tables, b.positions, from);
  }

  // ---- the batch's results, request by request

  function DecodedTo(r: Req, table: seq<nat>, token: Token): Req {
    r.(kv := Some(SeqKV(table, r.computed + 1, r.Adopted())), computed := r.computed + 1).Emit(token)
  }

  /** The running list after the first n sequences have their table and token. */
  function AfterBatch(q: seq<Req>, idx: seq<nat>, tables: seq<seq<nat>>, outs: seq<Token>, n: nat): (q': seq<Req>)
    requires n <= |idx| && n <= |tables| && n <= |outs|
    ensures |q'| == |q|
  {
    if n == 0 then q
    else
      var before, i := AfterBatch(q, idx, tables, outs, n - 1), idx[n - 1];
      if i < |q| then before[i := DecodedTo(q[i], tables[n - 1], outs[n - 1])] else before
  }

  lemma {:induction false} AfterSame(q: seq<Req>, idx: seq<nat>, tables: seq<seq<nat>>, outs: seq<Token>,
                                     tables': seq<seq<nat>>, outs': seq<Token>, n: nat)
    requires n <= |idx| && n <= |tables| && n <= |outs| && n <= |tables'| && n <= |outs'|
    requires forall c :: 0 <= c < n ==> tables'[c] == tables[c] && outs'[c] == outs[c]
    ensures AfterBatch(q, idx, tables', outs', n) == AfterBatch(q, idx, tables, outs, n)
    decreases n
  {
    if n > 0 {
      hide DecodedTo;
      AfterSame(q, idx, tables, outs, tables', outs', n - 1);
    }
  }

  /** Ids stay where they are, and whoever has not had its turn is as before. */
  lemma {:induction false} AfterKeeps(q: seq<Req>, idx: seq<nat>, tables: seq<seq<nat>>, outs: seq<Token>, n: nat,
                                      i: nat)
    requires n <= |idx| && n <= |tables| && n <= |outs| && i < |q|
    ensures AfterBatch(q, idx, tables, outs, n)[i].id == q[i].id
    ensures (forall c :: 0 <= c < n ==> idx[c] != i) ==> AfterBatch(q, idx, tables, outs, n)[i] == q[i]
    decreases n
  {
    if n > 0 {
      AfterKeeps(q, idx, tables, outs, n - 1, i);
    }
  }

  /** The next request of the batch, when the ones before it have had their turn. */
  lemma NextInBatch(q: seq<Req>, ids: seq<nat>, idx: seq<nat>, tables: seq<seq<nat>>, outs: seq<Token>, n: nat)
    requires Decodable(q, ids, idx) && n < |ids| && n <= |tables| && n <= |outs|
    ensures n < |idx| && idx[n] < |q|
    ensures var q' := AfterBatch(q, idx, tables, outs, n);
      Find(q', ids[n]) == idx[n] && q'[idx[n]] == q[idx[n]]
  {
    var q' := AfterBatch(q, idx, tables, outs, n);
    forall i | 0 <= i <= idx[n]
      ensures q'[i].id == q[i].id
    {
      AfterKeeps(q, idx, tables, outs, n, i);
    }
    AfterKeeps(q, idx, tables, outs, n, idx[n]);
    SameFind(q, q', ids[n], idx[n]);
  }

  lemma {:induction false} SameFind(q: seq<Req>, q': seq<Req>, id: nat, i: nat)
    requires i < |q| == |q'| && Find(q, id) == i && forall j :: 0 <= j <= i ==> q'[j].id == q[j].id
    ensures Find(q', id) == i
  {
  }

  lemma {:induction false} DecodesSnoc(cfg: Config, m: Model, e: State, ids: seq<nat>, id: nat)
    ensures ExecDecodes(cfg, m, e, ids + [id]) ==
      match ExecDecodes(cfg, m, e, ids)
      case None => None
      case Some(e') => ExecDecode(cfg, m, e', id)
    decreases |ids|
  {
    hide ExecDecode;
    if ids == [] {
      assert [id][1..] == [];
      assert ids + [id] == [id];
      assert forall e' :: ExecDecodes(cfg, m, e', []) == Some(e');
    } else {
      assert (ids + [id])[1..] == ids[1..] + [id];
      var e' := ExecDecode(cfg, m, e, ids[0]);
      if e'.Some? {
        DecodesSnoc(cfg, m, e'.value, ids[1..], id);
      }
    }
  }

  lemma {:induction false} InferKeeps(bs: nat, m: Model, st: Store, tables: seq<seq<nat>>, positions: seq<nat>,
                                      toks: seq<Token>, n: nat, f: Fed)
    requires n <= |tables| == |positions| == |toks| && InferEach(bs, m, st, tables, positions, toks, n) == Some(f)
    ensures forall c :: n <= c < |tables| ==> f.tables[c] == tables[c]
    decreases n
  {
    hide Infer;
    if n > 0 {
      InferKeeps(bs, m, st, tables, positions, toks, n - 1, InferEach(bs, m, st, tables, positions, toks, n - 1).value);
    }
  }

  /** The state when the first n sequences of the batch have been fed. */
  ghost function BatchState(e: State, idx: seq<nat>, f: BatchWrites.Fed, n: nat): State
    requires n <= |idx| && n <= |f.tables| && n <= |f.outs|
  {
    e.(pool := f.store.pool, mem := f.store.mem, running := AfterBatch(e.running, idx, f.tables, f.outs, n))
  }

  /** One sequence more: its turn in the engine is its turn in the sequential run. */
  lemma NextDecode(cfg: Config, m: Model, e: State, ids: seq<nat>, idx: seq<nat>, n: nat, f: BatchWrites.Fed,
                   g: BatchWrites.Fed)
    requires Decodable(e.running, ids, idx) && n < |ids| == |f.tables| == |g.tables| && |f.outs| == n
    requires |g.outs| == n + 1
    requires f.tables[n] == TableAt(e.running, idx[n])
    requires var b := BatchAt(e.running, idx);
      var p := Infer(cfg.bs, m, f.store, f.tables[n], b.positions[n], [b.toks[n]]);
      p.Some? && g == BatchWrites.Fed(p.value.store, f.tables[n := p.value.table], f.outs + [p.value.token])
    ensures ExecDecode(cfg, m, BatchState(e, idx, f, n), ids[n]) == Some(BatchState(e, idx, g, n + 1))
  {
    var i, e' := idx[n], BatchState(e, idx, f, n);
    NextInBatch(e.running, ids, idx, f.tables, f.outs, n);
    var r := e.running[i];
    assert e'.running[i] == r && Find(e'.running, ids[n]) == i;
    var b := BatchAt(e.running, idx);
    assert b.positions[n] == r.computed && b.toks[n] == r.LastToken() && f.tables[n] == r.Table();
    assert StoreOf(e') == f.store;
    var p := Infer(cfg.bs, m, f.store, r.Table(), r.computed, [r.LastToken()]).value;
    AfterSame(e.running, idx, f.tables, f.outs, g.tables, g.outs, n);
    hide Infer, Find, AfterBatch, BatchAt;
    assert Forward(cfg, m, e', r, r.computed, [r.LastToken()]) == Some(p);
    ExecDecodeIs(cfg, m, e', ids[n], i, p);
    AfterMore(e.running, idx, g.tables, g.outs, n);
    assert AfterDecode(r, p) == DecodedTo(r, p.table, p.token);
  }

  lemma AfterMore(q: seq<Req>, idx: seq<nat>, tables: seq<seq<nat>>, outs: seq<Token>, n: nat)
    requires n < |idx| && n < |tables| && n < |outs| && idx[n] < |q|
    ensures AfterBatch(q, idx, tables, outs, n + 1) ==
      AfterBatch(q, idx, tables, outs, n)[idx[n] := DecodedTo(q[idx[n]], tables[n], outs[n])]
  {
    hide DecodedTo;
  }

  /** Feeding the batch's sequences alone, in turn, is the engine's run over the decodes. */
  lemma {:induction false} DecodesAre(cfg: Config, m: Model, e: State, ids: seq<nat>, idx: seq<nat>, n: nat,
                                      f: BatchWrites.Fed)
    requires Decodable(e.running, ids, idx) && n <= |ids| == |idx|
    requires var b := BatchAt(e.running, idx);
      |b.tables| == |b.positions| == |b.toks| == |idx| &&
      InferEach(cfg.bs, m, StoreOf(e), b.tables, b.positions, b.toks, n) == Some(f)
    ensures |f.tables| == |idx| && |f.outs| == n
    ensures ExecDecodes(cfg, m, e, ids[..n]) == Some(BatchState(e, idx, f, n))
    decreases n
  {
    hide *;
    var b := BatchAt(e.running, idx);
    if n == 0 {
      NothingFed(cfg, m, e, ids, idx);
    } else {
      var d := LastFed(cfg, m, e, ids, idx, n, f);
      DecodesAre(cfg, m, e, ids, idx, n - 1, d);
      NextDecode(cfg, m, e, ids, idx, n - 1, d, f);
      DecodesSnoc(cfg, m, e, ids[..n - 1], ids[n - 1]);
    }
  }

  lemma NothingFed(cfg: Config, m: Model, e: State, ids: seq<nat>, idx: seq<nat>)
    requires |ids| == |idx|
    ensures var b := BatchAt(e.running, idx);
      |b.tables| == |b.positions| == |b.toks| == |idx|
      && InferEach(cfg.bs, m, StoreOf(e), b.tables, b.positions, b.toks, 0) ==
        Some(BatchWrites.Fed(StoreOf(e), b.tables, []))
    ensures ExecDecodes(cfg, m, e, ids[..0]) ==
      Some(BatchState(e, idx, BatchWrites.Fed(StoreOf(e), BatchAt(e.running, idx).tables, []), 0))
  {
    assert ids[..0] == [];
  }

  /** The last of n sequences fed in turn. */
  lemma LastFed(cfg: Config, m: Model, e: State, ids: seq<nat>, idx: seq<nat>, n: nat,
                f: BatchWrites.Fed) returns (d: BatchWrites.Fed)
    requires 0 < n <= |ids| == |idx|
    requires var b := BatchAt(e.running, idx);
      |b.tables| == |b.positions| == |b.toks| == |idx|
      && InferEach(cfg.bs, m, StoreOf(e), b.tables, b.positions, b.toks, n) == Some(f)
    ensures |f.tables| == |d.tables| == |idx| && |f.outs| == n && |d.outs| == n - 1
    ensures var b := BatchAt(e.running, idx);
      && InferEach(cfg.bs, m, StoreOf(e), b.tables, b.positions, b.toks, n - 1) == Some(d)
      && d.tables[n - 1] == TableAt(e.running, idx[n - 1])
      && var p := Infer(cfg.bs, m, d.store, d.tables[n - 1], b.positions[n - 1], [b.toks[n - 1]]);
         p.Some? && f == BatchWrites.Fed(p.value.store, d.tables[n - 1 := p.value.table], d.outs + [p.value.token])
    ensures ids[..n - 1] + [ids[n - 1]] == ids[..n]
  {
    assert ids[..n - 1] + [ids[n - 1]] == ids[..n];
    hide *;
    var b := BatchAt(e.running, idx);
    BatchTable(e.running, idx, n - 1);
    d := InferBack(cfg.bs, m, StoreOf(e), b.tables, b.positions, b.toks, n, f);
  }

  lemma BatchTable(q: seq<Req>, idx: seq<nat>, n: nat)
    requires n < |idx|
    ensures n < |BatchAt(q, idx).tables| && BatchAt(q, idx).tables[n] == TableAt(q, idx[n])
  {
  }

  lemma InferBack(bs: nat, m: Model, st: Store, tables: seq<seq<nat>>, positions: seq<nat>, toks: seq<Token>, n: nat,
                  f: BatchWrites.Fed)
    returns (d: BatchWrites.Fed)
    requires 0 < n <= |tables| == |positions| == |toks| && InferEach(bs, m, st, tables, positions, toks, n) == Some(f)
    ensures InferEach(bs, m, st, tables, positions, toks, n - 1) == Some(d) && |f.tables| == |d.tables| == |tables|
    ensures |d.outs| == n - 1 && |f.outs| == n && d.tables[n - 1] == tables[n - 1]
    ensures var p := Infer(bs, m, d.store, d.tables[n - 1], positions[n - 1], [toks[n - 1]]);
      p.Some? && f == BatchWrites.Fed(p.value.store, d.tables[n - 1 := p.value.table], d.outs + [p.value.token])
  {
    d := InferEach(bs, m, st, tables, positions, toks, n - 1).value;
    InferKeeps(bs, m, st, tables, positions, toks, n - 1, d);
    hide Infer;
  }

  lemma BatchStateIs(e: State, idx: seq<nat>, st: Store, tables: seq<seq<nat>>, outs: seq<Token>)
    requires |idx| == |tables| == |outs|
    ensures BatchState(e, idx, BatchWrites.Fed(st, tables, outs), |idx|) ==
      e.(pool := st.pool, mem := st.mem, running := AfterBatch(e.running, idx, tables, outs, |idx|))
  {
    hide AfterBatch;
  }

  /** What the batched pass asks for is there. */
  lemma BatchArgs<X>(cfg: Config, net: Net<X>, e: State, ids: seq<nat>, idx: seq<nat>)
    requires cfg.bs > 0 && Safe(cfg, AsModel(net), e) && LayeredState(net, e) && Decodable(e.running, ids, idx)
    ensures StoreLayered(StoreOf(e), net.layers) && StoreOf(e).pool == e.pool
    ensures var b, views := BatchAt(e.running, idx), ViewsAt(cfg, e, idx);
      && |b.tables| == |b.toks| == |b.positions| == |views| == |idx| && b.tables == TablesAt(e.running, idx)
      && forall c :: 0 <= c < |views| ==>
           && b.positions[c] == |views[c]|
           && Progressed(cfg.bs, net, StoreOf(e), b.tables[c], views[c], [b.toks[c]], 0)
  {
    var b, views := BatchAt(e.running, idx), ViewsAt(cfg, e, idx);
    hide Safe, AsModel, Progressed, TablesAt, Positions, AdoptedAt, LastTokens, ViewsAt, HasView, StoreLayered,
      PrivateFrom, InRange,
      Decodable;
    forall c | 0 <= c < |views|
      ensures b.positions[c] == |views[c]|
      ensures Progressed(cfg.bs, net, StoreOf(e), b.tables[c], views[c], [b.toks[c]], 0)
    {
      SequenceReady(cfg, net, e, ids, idx, c);
    }
  }

  /** The decodes of an executable plan in one batched pass. */
  method DecodesByBatch<X>(cfg: Config, net: Net<X>, e: State, ids: seq<nat>) returns (e': State)
    requires cfg.bs > 0 && net.layers > 0 && Safe(cfg, AsModel(net), e) && LayeredState(net, e)
    requires Executable(cfg, e, ids, [])
    ensures ExecDecodes(cfg, AsModel(net), e, ids) == Some(e')
  {
    hide *;
    var idx := Places(e.running, ids);
    PlacesAre(cfg, AsModel(net), e, ids);
    DecodableSize(e.running, ids, idx);
    ghost var rest := BatchCounts(cfg, AsModel(net), e, ids, idx);
    BatchReady(cfg, net, e, ids, idx, rest);
    BatchArgs(cfg, net, e, ids, idx);
    var b := BatchAt(e.running, idx);
    ghost var from := AdoptedAt(e.running, idx);
    var out := ForwardDecodeBatch(cfg.bs, net, StoreOf(e), b, ViewsAt(cfg, e, idx), rest, from);
    var st, tables, outs := out.value.0, out.value.1, out.value.2;
    DecodesAre(cfg, AsModel(net), e, ids, idx, |ids|, BatchWrites.Fed(st, tables, outs));
    e' := e.(pool := st.pool, mem := st.mem, running := AfterBatch(e.running, idx, tables, outs, |idx|));
    BatchStateIs(e, idx, st, tables, outs);
    assert ids[..|ids|] == ids;
  }

  // ---- a whole plan

  /**
   A plan carried out with the transformer's own loops: each prefill chunk layer by
   layer, then all decodes in one pass. It is the step of the engine that runs are made
   of, so no exception escapes and every output is what plain decoding gives.
   */
  method ExecuteByLayers<X>(cfg: Config, net: Net<X>, w: Work) returns (e: State)
    requires cfg.bs > 0 && net.layers > 0 && |net.blank| == net.layers
    requires Safe(cfg, AsModel(net), w.st) && LayeredState(net, w.st) && Executable(cfg, w.st, w.decodes, w.chunks)
    ensures Execute(cfg, AsModel(net), w) == Some(RetireFrom(cfg, e, 0))
  {
    hide *;
    var e1 := ChunksByLayers(cfg, net, w.st, w.chunks, w.decodes);
    e := DecodesByBatch(cfg, net, e1, w.decodes);
    ExecuteIs(cfg, AsModel(net), w, e1, e);
  }

  lemma ExecuteIs(cfg: Config, m: Model, w: Work, e1: State, e2: State)
    requires cfg.bs > 0 && ExecChunks(cfg, m, w.st, w.chunks) == Some(e1)
    requires ExecDecodes(cfg, m, e1, w.decodes) == Some(e2)
    ensures Execute(cfg, m, w) == Some(RetireFrom(cfg, e2, 0))
  {
    hide ExecChunks, ExecDecodes, RetireFrom;
  }

  /** In every reachable state the next plan can be carried out this way. */
  lemma PlansRunByLayers<X>(cfg: Config, net: Net<X>, events: seq<Event>)
    requires cfg.bs > 0 && |net.blank| == net.layers && CleanRun(cfg, AsModel(net), events + [Tick])
    ensures Run(cfg, AsModel(net), events).Some?
    ensures var w := Schedule(cfg, Run(cfg, AsModel(net), events).value);
      Safe(cfg, AsModel(net), w.st) && LayeredState(net, w.st) && Executable(cfg, w.st, w.decodes, w.chunks)
  {
    hide *;
    CleanSoFar(cfg, AsModel(net), events);
    RunKeeps(cfg, AsModel(net), events);
    var e := Run(cfg, AsModel(net), events).value;
    ScheduleIsExecutable(cfg, AsModel(net), e);
    RunLayered(cfg, net, events);
    Outcomes.ScheduleDone(cfg, e);
    SameMemState(net, e, Schedule(cfg, e).st);
  }
}
