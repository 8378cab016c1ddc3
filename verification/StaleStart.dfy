/**
 Why output equivalence needs chunked prefill or no prefix cache: a run of an engine
 with whole-prompt prefills and a prefix cache that ends with a wrong output. An
 admission that is rolled back after a cache hit keeps its position; when the cached
 prefix is gone by the next admission, the prefill starts past cells that nobody
 wrote, and attends to what another request has left there.
 */
module StaleStart {
  import opened Numbers
  import opened Blocks
  import opened Paging
  import opened Decoding
  import opened Options
  import opened Radix
  import opened Requests
  import opened Scheduling
  import opened Serving

  /** Blocks of one token, six of them, a budget of three tokens, at most four cached blocks. */
  const WHOLE_PROMPTS := Config(1, 6, 0, 3, 3, false, true, true, 4, 10, 256)

  /** A token's cells hold the token itself. */
  function Mark(t: Token): Column { [Cell([t as real], [t as real])] }

  function Read(col: Column): Token { if col != [] && col[0].k != [] then col[0].k[0].Floor else 0 }

  /** A model that attends to position 0 and repeats what it finds there. */
  const ECHO := Model((view, t) => Mark(t), (view, t) => if view == [] then t else Read(view[0]), Mark(0))

  lemma ReadMark(t: Token)
    ensures Read(Mark(t)) == t
  {
  }

  // ---- the requests

  const CACHED := NewRequest(0, [7], 1, true)
  const FIRST := NewRequest(1, [1], 5, true)
  const SECOND := NewRequest(2, [2], 5, true)
  const VICTIM := NewRequest(3, [7, 8, 9], 1, true)

  /** A request that is decoding: its table, its position and what it has repeated so far. */
  function Repeating(r: Req, output: seq<Token>, table: seq<nat>): Req {
    r.(status := Running, output := output, kv := Some(SeqKV(table, |table|, 0)), computed := |table|)
  }

  /** The victim after its admission was undone: no KV, but position 1. */
  const UNDONE := VICTIM.(computed := 1)

  const PATH: Path := [[7]]

  function Marks(ts: seq<Token>): seq<seq<Column>> { seq(|ts|, i requires 0 <= i < |ts| => [Mark(ts[i])]) }

  // ---- one token at a time

  /** A pass over one token takes the next free block and writes into it. */
  lemma OneToken(e: State, r: Req, t: Token, rest: seq<nat>, b: nat)
    requires CanFeed(WHOLE_PROMPTS, e, r, [t]) && e.pool.free == rest + [b] && b < |e.pool.ref| == |e.mem|
    requires r.Table() != [] ==> r.Table()[0] < |e.mem| && |e.mem[r.Table()[0]]| == 1
    ensures var view := if r.Table() == [] then t else Read(e.mem[r.Table()[0]][0]);
      Forward(WHOLE_PROMPTS, ECHO, e, r, |r.Table()|, [t]) ==
        Some(Pass(Store(Pool(rest, e.pool.ref[b := 1]), e.mem[b := [Mark(t)]]), r.Table() + [b], view))
  {
    var table, start := r.Table(), |r.Table()|;
    var st := StoreOf(e);
    var g := EnsureCapacity(1, st, table, start + 1);
    EnsureCapacityShape(1, st, table, start + 1);
    OneBlock(st, table, rest, b);
    var view := Gather(1, g.store, g.table, start);
    assert start > 0 ==> view[0] == At(1, e.mem, g.table, 0) && g.table[0] == table[0];
    OneColumn(view, t);
    OneSlot(g.store, g.table, start, b, Mark(t));
    hide Gather, Shaped, FreeListOk, InRange, EnsureCapacity, WriteFrom, Extend, BlocksNeeded, At;
  }

  lemma OneBlock(st: Store, table: seq<nat>, rest: seq<nat>, b: nat)
    requires FreeListOk(st.pool) && st.pool.free == rest + [b] && b < |st.pool.ref|
    ensures EnsureCapacity(1, st, table, |table| + 1) ==
      Written(Store(Pool(rest, st.pool.ref[b := 1]), st.mem), table + [b])
  {
    CeilDivUnique(|table| + 1, 1, |table| + 1);
    assert st.pool.free[..|st.pool.free| - 1] == rest;
    assert AllocateMany(st.pool, 1) == AllocateMany(Allocate(st.pool), 0) == Allocate(st.pool);
    assert NextBlocks(st.pool, 1) == [b];
  }

  lemma OneColumn(view: seq<Column>, t: Token)
    ensures var cols := Extend(ECHO, view, [t]);
      cols == view + [Mark(t)] && cols[|view|..] == [Mark(t)] && cols[..|cols| - 1] == view
  {
    assert [t][1..] == [];
    assert Extend(ECHO, view, [t]) == Extend(ECHO, view + [Mark(t)], []);
  }

  lemma OneSlot(st: Store, table: seq<nat>, pos: nat, b: nat, col: Column)
    requires Shaped(1, st) && FreeListOk(st.pool) && InRange(st, table)
    requires pos < |table| && table[pos] == b && st.pool.ref[b] <= 1
    ensures WriteFrom(1, st, table, pos, [col]) == Written(st.(mem := st.mem[b := [col]]), table)
  {
    assert pos / 1 == pos && pos % 1 == 0;
    var w := WriteAt(1, st, table, pos, col);
    assert st.mem[b][0 := col] == [col];
    assert [col][1..] == [];
    WriteAtShape(1, st, table, pos, col);
    assert WriteFrom(1, w.store, w.table, pos + 1, []) == w;
  }

  // ---- the first step: three prompts of one token

  predicate Fresh(r: Req) { r.kv.None? && r.computed == 0 && r.output == [] && |r.prompt| == 1 }

  function InPrefill(r: Req): Req { r.(status := Prefill, kv := Some(SeqKV([], 0, 0))) }

  /** The admission phase after a fresh request has been admitted with its one token. */
  function Started(w: Work, r: Req, rest: seq<Req>): Work {
    w.(st := w.st.(running := w.st.running + [InPrefill(r)], waiting := rest, tree :=
      w.st.tree.(clock := w.st.tree.clock + 1)),
       reserved := w.reserved + 1, scheduled := w.scheduled + {r.id}, chunks := w.chunks + [Slice(r.id, 0, 1, true)],
       budget := w.budget - 1)
  }

  lemma AdmitFresh(w: Work, r: Req, rest: seq<Req>)
    requires w.st.waiting == [r] + rest && Fresh(r) && w.st.tree.nodes == map[]
    requires w.budget > 0 && |w.st.running| < 3 && Available(WHOLE_PROMPTS, w) >= 1
    ensures AdmitPhase(WHOLE_PROMPTS, w) == AdmitPhase(WHOLE_PROMPTS, Started(w, r, rest))
  {
    var e := Attach(WHOLE_PROMPTS, w.st);
    assert MatchBlocks(1, w.st.tree, r.prompt) == [];
    assert e.waiting == [r.(kv := Some(SeqKV([], 0, 0)))] + rest;
    assert e.tree.nodes == map[];
    CeilDivUnique(1, 1, 1);
    var w2 := w.(st := Admit(e));
    assert Admit(e).running == w.st.running + [InPrefill(r)] && Admit(e).waiting == rest;
    OneSlice(InPrefill(r), w.budget, Available(WHOLE_PROMPTS, w2));
    hide MakeChunk, MatchBlocks, MatchTree;
    assert TakeChunk(WHOLE_PROMPTS, w2, InPrefill(r), Slice(r.id, 0, 1, true)) == Started(w, r, rest);
  }

  lemma OneSlice(r: Req, budget: int, available: int)
    requires r.Table() == [] && r.computed == 0 && r.PrefillTarget() == 1 && budget > 0 && available >= 1
    ensures MakeChunk(WHOLE_PROMPTS, r, budget, available) == Some(Slice(r.id, 0, 1, true))
  {
    CeilDivUnique(1, 1, 1);
  }

  /** The prefill of a one-token prompt. */
  lemma OneTokenPrompt(e: State, i: nat, r: Req, rest: seq<nat>, b: nat)
    requires Fresh(r) && i < |e.running| && e.running[i] == InPrefill(r) && Find(e.running, r.id) == i
    requires CanFeed(WHOLE_PROMPTS, e, InPrefill(r), r.prompt) && e.pool.free == rest + [b]
    requires b < |e.pool.ref| == |e.mem|
    ensures ExecChunk(WHOLE_PROMPTS, ECHO, e, Slice(r.id, 0, 1, true)) ==
      Some(e.(pool := Pool(rest, e.pool.ref[b := 1]), mem := e.mem[b := [Mark(r.prompt[0])]],
              running := e.running[i := Repeating(r, [], [b]).Emit(r.prompt[0])]))
  {
    var q, t := InPrefill(r), r.prompt[0];
    assert r.prompt == [t];
    assert q.PrefillTokens()[0..1] == [t];
    OneToken(e, q, t, rest, b);
    assert q.Table() == [] && q.Table() + [b] == [b];
    assert q.PrefillTokens()[0..0 + 1] == [t];
    var p := Pass(Store(Pool(rest, e.pool.ref[b := 1]), e.mem[b := [Mark(t)]]), [b], t);
    assert Forward(WHOLE_PROMPTS, ECHO, e, q, 0, [t]) == Some(p);
    assert Advance(q, p, 1).(status := Running) == Repeating(r, [], [b]);
    hide Forward;
  }

  /** A request that has repeated its one token n times. */
  function Echoing(r: Req, n: nat, table: seq<nat>): Req
    requires |r.prompt| == 1
  {
    Repeating(r, seq(n, _ => r.prompt[0]), table)
  }

  /** A decode reads position 0 and repeats it. */
  lemma OneMore(e: State, i: nat, r: Req, table: seq<nat>, rest: seq<nat>, b: nat)
    requires Fresh(r) && r.maxTokens == 5 && r.ignoreEos && 0 < |table| < 4
    requires i < |e.running| && e.running[i] == Echoing(r, |table|, table) && Find(e.running, r.id) == i
    requires CanFeed(WHOLE_PROMPTS, e, e.running[i], r.prompt) && e.pool.free == rest + [b]
    requires b < |e.pool.ref| == |e.mem|
    requires table[0] < |e.mem| && e.mem[table[0]] == [Mark(r.prompt[0])]
    ensures ExecDecode(WHOLE_PROMPTS, ECHO, e, r.id) ==
      Some(e.(pool := Pool(rest, e.pool.ref[b := 1]), mem := e.mem[b := [Mark(r.prompt[0])]],
              running := e.running[i := Echoing(r, |table| + 1, table + [b])]))
  {
    var q, t := e.running[i], r.prompt[0];
    assert r.prompt == [t];
    ReadMark(t);
    OneToken(e, q, t, rest, b);
    assert q.LastToken() == t;
    assert q.output + [t] == seq(|table| + 1, _ => t);
    var p := Pass(Store(Pool(rest, e.pool.ref[b := 1]), e.mem[b := [Mark(t)]]), table + [b], t);
    assert Forward(WHOLE_PROMPTS, ECHO, e, q, q.computed, [t]) == Some(p);
    assert Advance(q, p, |table| + 1).Emit(t) == Echoing(r, |table| + 1, table + [b]);
    hide Forward;
  }

  // ---- the run

  const START := State(Initial(6), Marks([0, 0, 0, 0, 0, 0]), EmptyTree, [], [CACHED, FIRST, SECOND], [], 3)

  lemma RunStep(events: seq<Event>, ev: Event, e: State)
    requires Run(WHOLE_PROMPTS, ECHO, events) == Some(e)
    ensures Run(WHOLE_PROMPTS, ECHO, events + [ev]) == Next(WHOLE_PROMPTS, ECHO, e, ev)
  {
    assert (events + [ev])[..|events + [ev]| - 1] == events;
  }

  lemma Submitted(e: State, prompt: seq<Token>, maxTokens: nat)
    requires Acceptable(WHOLE_PROMPTS, prompt, maxTokens)
    ensures Next(WHOLE_PROMPTS, ECHO, e, Add(prompt, maxTokens, true)) ==
      Some(e.(waiting := e.waiting + [NewRequest(e.nextId, prompt, maxTokens, true)], nextId := e.nextId + 1))
  {
  }

  lemma BlankMemory()
    ensures Init(WHOLE_PROMPTS, ECHO).mem == Marks([0, 0, 0, 0, 0, 0])
  {
    var mem, marks := Init(WHOLE_PROMPTS, ECHO).mem, Marks([0, 0, 0, 0, 0, 0]);
    assert |mem| == 6 == |marks|;
    forall b | 0 <= b < 6
      ensures mem[b] == marks[b]
    {
      assert mem[b] == seq(1, _ => Mark(0)) == [Mark(0)];
    }
  }

  lemma Submissions()
    ensures Run(WHOLE_PROMPTS, ECHO, SUBMITTED) == Some(START)
  {
    var e0 := Init(WHOLE_PROMPTS, ECHO);
    assert e0 == START.(waiting := [], nextId := 0) by {
      BlankMemory();
    }
    assert Run(WHOLE_PROMPTS, ECHO, []) == Some(e0);
    Submitted(e0, [7], 1);
    Submitted(e0.(waiting := [CACHED], nextId := 1), [1], 5);
    Submitted(e0.(waiting := [CACHED, FIRST], nextId := 2), [2], 5);
    RunStep([], Add([7], 1, true), e0);
    hide Run, Next, Init, Marks, Initial;
    assert e0.waiting + [CACHED] == [CACHED] && [CACHED] + [FIRST] == [CACHED, FIRST];
    assert [] + [Add([7], 1, true)] == [Add([7], 1, true)];
    RunStep([Add([7], 1, true)], Add([1], 5, true), e0.(waiting := [CACHED], nextId := 1));
    assert [Add([7], 1, true)] + [Add([1], 5, true)] == [Add([7], 1, true), Add([1], 5, true)];
    RunStep([Add([7], 1, true), Add([1], 5, true)], Add([2], 5, true), e0.(waiting := [CACHED, FIRST], nextId := 2));
    assert [Add([7], 1, true), Add([1], 5, true)] + [Add([2], 5, true)] == SUBMITTED;
    assert [CACHED, FIRST] + [SECOND] == [CACHED, FIRST, SECOND];
  }

  const SUBMITTED := [Add([7], 1, true), Add([1], 5, true), Add([2], 5, true)]

  /** The plan of the first step: everybody's one token. */
  function Threefold(): Work {
    Work(START.(running := [InPrefill(CACHED), InPrefill(FIRST), InPrefill(SECOND)], waiting := [], tree :=
      Tree(map[], 3, 0)),
      0, 3, {0, 1, 2}, [], [Slice(0, 0, 1, true), Slice(1, 0, 1, true), Slice(2, 0, 1, true)])
  }

  /** The admission phase from the start of a step with nothing running. */
  function Opening(q: seq<Req>, waiting: seq<Req>, budget: int, ids: set<nat>, chunks: seq<Slice>): Work {
    Work(START.(running := q, waiting := waiting, tree := Tree(map[], |q|, 0)), budget, |q|, ids, [], chunks)
  }

  lemma OpeningIs(q: seq<Req>, r: Req, rest: seq<Req>, budget: int, ids: set<nat>, chunks: seq<Slice>)
    ensures var w := Opening(q, [r] + rest, budget, ids, chunks);
      && w.st.running == q && w.st.waiting == [r] + rest && w.st.tree.nodes == map[] && w.budget == budget
      && Available(WHOLE_PROMPTS, w) == 6 - |q|
      && Started(w, r, rest) ==
        Opening(q + [InPrefill(r)], rest, budget - 1, ids + {r.id}, chunks + [Slice(r.id, 0, 1, true)])
  {
  }

  lemma Opened(q: seq<Req>, r: Req, rest: seq<Req>, budget: int, ids: set<nat>, chunks: seq<Slice>)
    requires Fresh(r) && budget > 0 && |q| < 3
    ensures AdmitPhase(WHOLE_PROMPTS, Opening(q, [r] + rest, budget, ids, chunks)) ==
      AdmitPhase(WHOLE_PROMPTS,
        Opening(q + [InPrefill(r)], rest, budget - 1, ids + {r.id}, chunks + [Slice(r.id, 0, 1, true)]))
  {
    hide *;
    OpeningIs(q, r, rest, budget, ids, chunks);
    AdmitFresh(Opening(q, [r] + rest, budget, ids, chunks), r, rest);
  }

  lemma ThreeOpened(a: Req, b: Req, c: Req)
    requires Fresh(a) && Fresh(b) && Fresh(c)
    ensures AdmitPhase(WHOLE_PROMPTS, Opening([], [a, b, c], 3, {}, [])) ==
      AdmitPhase(WHOLE_PROMPTS, Opening([InPrefill(a), InPrefill(b), InPrefill(c)], [], 0, {a.id, b.id, c.id},
        [Slice(a.id, 0, 1, true), Slice(b.id, 0, 1, true), Slice(c.id, 0, 1, true)]))
  {
    hide *;
    var p, q, r := InPrefill(a), InPrefill(b), InPrefill(c);
    var s, t, u := Slice(a.id, 0, 1, true), Slice(b.id, 0, 1, true), Slice(c.id, 0, 1, true);
    assert [a] + [b, c] == [a, b, c] && [b] + [c] == [b, c] && [c] + [] == [c];
    assert [] + [p] == [p] && [p] + [q] == [p, q] && [p, q] + [r] == [p, q, r];
    assert [] + [s] == [s] && [s] + [t] == [s, t] && [s, t] + [u] == [s, t, u];
    assert {} + {a.id} == {a.id} && {a.id} + {b.id} == {a.id, b.id} && {a.id, b.id} + {c.id} == {a.id, b.id, c.id};
    Opened([], a, [b, c], 3, {}, []);
    Opened([p], b, [c], 2, {a.id}, [s]);
    Opened([p, q], c, [], 1, {a.id, b.id}, [s, t]);
  }

  lemma FirstPlan()
    ensures Schedule(WHOLE_PROMPTS, START) == Threefold()
  {
    FirstIds();
    FirstWork();
    ThreeOpened(CACHED, FIRST, SECOND);
    hide *;
    NothingRuns(Opening([], [CACHED, FIRST, SECOND], 3, {}, []));
    NothingLeft(Threefold());
  }

  lemma FirstWork()
    ensures var w := Opening([], [CACHED, FIRST, SECOND], 3, {}, []);
      w == Work(w.st, 3, 0, {}, [], []) && w.st == START && w.st.running == []
    ensures Threefold().st.waiting == [] && Threefold().chunks != []
    ensures Threefold() == Opening([InPrefill(CACHED), InPrefill(FIRST), InPrefill(SECOND)], [], 0, {0, 1, 2},
        [Slice(0, 0, 1, true), Slice(1, 0, 1, true), Slice(2, 0, 1, true)])
  {
  }

  lemma FirstIds()
    ensures CACHED.id == 0 && FIRST.id == 1 && SECOND.id == 2 && Fresh(CACHED) && Fresh(FIRST) && Fresh(SECOND)
  {
  }

  lemma NothingRuns(w: Work)
    requires w.st.running == [] && w == Work(w.st, 3, 0, {}, [], [])
    ensures Schedule(WHOLE_PROMPTS, w.st) ==
      ForceHead(WHOLE_PROMPTS, BreakStall(WHOLE_PROMPTS, AdmitPhase(WHOLE_PROMPTS, w)))
  {
    assert Ids(w.st.running) == [];
  }

  lemma NothingLeft(w: Work)
    requires w.st.waiting == [] && w.chunks != []
    ensures ForceHead(WHOLE_PROMPTS, BreakStall(WHOLE_PROMPTS, AdmitPhase(WHOLE_PROMPTS, w))) == w
  {
  }

  // ---- the first step is carried out

  /** A state of the engine: block i of its pool holds the mark of ts[i]. */
  function Stage(free: seq<nat>, ref: seq<nat>, ts: seq<Token>, tree: Tree, running: seq<Req>, waiting: seq<Req>,
                 done: seq<Req>, nextId: nat): State {
    State(Pool(free, ref), Marks(ts), tree, running, waiting, done, nextId)
  }

  lemma StageIs(rest: seq<nat>, b: nat, ref: seq<nat>, ts: seq<Token>, t: Token)
    requires |ref| == |ts| && b < |ts| && FreeListOk(Pool(rest + [b], ref))
    ensures Shaped(1, Store(Pool(rest + [b], ref), Marks(ts))) && |Marks(ts)| == |ts|
    ensures Marks(ts)[b := [Mark(t)]] == Marks(ts[b := t])
    ensures FreeListOk(Pool(rest, ref[b := 1]))
  {
    var p := Pool(rest + [b], ref);
    AllocateFreeList(p);
    assert Allocate(p) == Pool(rest, ref[b := 1]) by {
      assert p.free[..|p.free| - 1] == rest;
    }
  }

  lemma PromptRuns(rest: seq<nat>, b: nat, ref: seq<nat>, ts: seq<Token>, tree: Tree, running: seq<Req>, i: nat, r: Req)
    requires |ref| == |ts| && b < |ts| && FreeListOk(Pool(rest + [b], ref))
    requires Fresh(r) && i < |running| && running[i] == InPrefill(r) && Find(running, r.id) == i
    ensures ExecChunk(WHOLE_PROMPTS, ECHO, Stage(rest + [b], ref, ts, tree, running, [], [], 3),
      Slice(r.id, 0, 1, true)) ==
      Some(Stage(rest, ref[b := 1], ts[b := r.prompt[0]], tree, running[i := Repeating(r, [], [b]).Emit(r.prompt[0])],
        [], [], 3))
    ensures FreeListOk(Pool(rest, ref[b := 1]))
  {
    hide Shaped, FreeListOk, Marks, ExecChunk, Find;
    var e := Stage(rest + [b], ref, ts, tree, running, [], [], 3);
    StageIs(rest, b, ref, ts, r.prompt[0]);
    assert CanFeed(WHOLE_PROMPTS, e, InPrefill(r), r.prompt);
    OneTokenPrompt(e, i, r, rest, b);
  }

  /** Served, before the first request is retired. */
  function Decided(): State {
    Stage([5, 4, 3], [1, 1, 1, 0, 0, 0], [7, 1, 2, 0, 0, 0], Tree(map[], 3, 0),
      [Repeating(CACHED, [], [0]).Emit(7), Echoing(FIRST, 1, [1]), Echoing(SECOND, 1, [2])], [], [], 3)
  }

  lemma FindAt(q: seq<Req>, i: nat)
    requires i < |q| && forall j :: 0 <= j < i ==> q[j].id != q[i].id
    ensures Find(q, q[i].id) == i
  {
  }

  lemma ChunkThen(e: State, c: Slice, cs: seq<Slice>, e': State)
    requires ExecChunk(WHOLE_PROMPTS, ECHO, e, c) == Some(e')
    ensures ExecChunks(WHOLE_PROMPTS, ECHO, e, [c] + cs) == ExecChunks(WHOLE_PROMPTS, ECHO, e', cs)
  {
    assert ([c] + cs)[1..] == cs;
  }

  lemma FirstEcho(r: Req, b: nat)
    requires Fresh(r) && r.maxTokens == 5 && r.ignoreEos
    ensures Repeating(r, [], [b]).Emit(r.prompt[0]) == Echoing(r, 1, [b])
  {
    assert [] + [r.prompt[0]] == seq(1, _ => r.prompt[0]);
  }

  /** The first step after one and after two of its three prompts. */
  function AfterOne(): State {
    Stage([5, 4, 3, 2, 1], [1, 0, 0, 0, 0, 0], [7, 0, 0, 0, 0, 0], Tree(map[], 3, 0),
      [Repeating(CACHED, [], [0]).Emit(7), InPrefill(FIRST), InPrefill(SECOND)], [], [], 3)
  }

  function AfterTwo(): State {
    Stage([5, 4, 3, 2], [1, 1, 0, 0, 0, 0], [7, 1, 0, 0, 0, 0], Tree(map[], 3, 0),
      [Repeating(CACHED, [], [0]).Emit(7), Echoing(FIRST, 1, [1]), InPrefill(SECOND)], [], [], 3)
  }

  lemma PromptOne()
    ensures ExecChunk(WHOLE_PROMPTS, ECHO, Threefold().st, Slice(0, 0, 1, true)) == Some(AfterOne())
    ensures FreeListOk(AfterOne().pool)
  {
    var q := [InPrefill(CACHED), InPrefill(FIRST), InPrefill(SECOND)];
    assert Threefold().st ==
      Stage([5, 4, 3, 2, 1] + [0], [0, 0, 0, 0, 0, 0], [0, 0, 0, 0, 0, 0], Tree(map[], 3, 0), q, [], [], 3);
    InitialCounts(6);
    assert Initial(6) == Pool([5, 4, 3, 2, 1] + [0], [0, 0, 0, 0, 0, 0]);
    FindAt(q, 0);
    assert q[0 := Repeating(CACHED, [], [0]).Emit(7)] == AfterOne().running;
    assert [0, 0, 0, 0, 0, 0][0 := 1] == [1, 0, 0, 0, 0, 0] && [0, 0, 0, 0, 0, 0][0 := 7] == [7, 0, 0, 0, 0, 0];
    assert CACHED.id == 0 && CACHED.prompt[0] == 7 && Fresh(CACHED);
    hide FreeListOk, Find, ExecChunk, Marks, Repeating, Echoing, InPrefill, Fresh;
    PromptRuns([5, 4, 3, 2, 1], 0, [0, 0, 0, 0, 0, 0], [0, 0, 0, 0, 0, 0], Tree(map[], 3, 0), q, 0, CACHED);
  }

  lemma PromptTwo()
    requires FreeListOk(AfterOne().pool)
    ensures ExecChunk(WHOLE_PROMPTS, ECHO, AfterOne(), Slice(1, 0, 1, true)) == Some(AfterTwo())
    ensures FreeListOk(AfterTwo().pool)
  {
    var q := AfterOne().running;
    assert AfterOne() == Stage([5, 4, 3, 2] +
      [1], [1, 0, 0, 0, 0, 0], [7, 0, 0, 0, 0, 0], Tree(map[], 3, 0), q, [], [], 3);
    FindAt(q, 1);
    FirstEcho(FIRST, 1);
    assert q[1 := Echoing(FIRST, 1, [1])] == AfterTwo().running;
    assert [1, 0, 0, 0, 0, 0][1 := 1] == [1, 1, 0, 0, 0, 0] && [7, 0, 0, 0, 0, 0][1 := 1] == [7, 1, 0, 0, 0, 0];
    assert FIRST.id == 1 && FIRST.prompt[0] == 1 && Fresh(FIRST);
    hide FreeListOk, Find, ExecChunk, Marks, Repeating, Echoing, InPrefill, Fresh;
    PromptRuns([5, 4, 3, 2], 1, [1, 0, 0, 0, 0, 0], [7, 0, 0, 0, 0, 0], Tree(map[], 3, 0), q, 1, FIRST);
  }

  lemma PromptThree()
    requires FreeListOk(AfterTwo().pool)
    ensures ExecChunk(WHOLE_PROMPTS, ECHO, AfterTwo(), Slice(2, 0, 1, true)) == Some(Decided())
    ensures FreeListOk(Decided().pool)
  {
    var q := AfterTwo().running;
    assert AfterTwo() == Stage([5, 4, 3] +
      [2], [1, 1, 0, 0, 0, 0], [7, 1, 0, 0, 0, 0], Tree(map[], 3, 0), q, [], [], 3);
    FindAt(q, 2);
    FirstEcho(SECOND, 2);
    assert q[2 := Echoing(SECOND, 1, [2])] == Decided().running;
    assert [1, 1, 0, 0, 0, 0][2 := 1] == [1, 1, 1, 0, 0, 0] && [7, 1, 0, 0, 0, 0][2 := 2] == [7, 1, 2, 0, 0, 0];
    assert SECOND.id == 2 && SECOND.prompt[0] == 2 && Fresh(SECOND);
    hide FreeListOk, Find, ExecChunk, Marks, Repeating, Echoing, InPrefill, Fresh;
    PromptRuns([5, 4, 3], 2, [1, 1, 0, 0, 0, 0], [7, 1, 0, 0, 0, 0], Tree(map[], 3, 0), q, 2, SECOND);
  }

  lemma FirstPrefills()
    ensures ExecChunks(WHOLE_PROMPTS, ECHO, Threefold().st, Threefold().chunks) == Some(Decided())
    ensures FreeListOk(Decided().pool)
  {
    var c0, c1, c2 := Slice(0, 0, 1, true), Slice(1, 0, 1, true), Slice(2, 0, 1, true);
    assert Threefold().chunks == [c0] + ([c1] + ([c2] + []));
    hide *;
    PromptOne();
    PromptTwo();
    PromptThree();
    ChunkThen(Threefold().st, c0, [c1] + ([c2] + []), AfterOne());
    ChunkThen(AfterOne(), c1, [c2] + [], AfterTwo());
    ChunkThen(AfterTwo(), c2, [], Decided());
    NoChunks(Decided());
  }

  lemma NoChunks(e: State)
    ensures ExecChunks(WHOLE_PROMPTS, ECHO, e, []) == Some(e)
  {
  }

  /** The first request is done and its block cached; the other two decode. */
  function Served(): State {
    Stage([5, 4, 3], [1, 1, 1, 0, 0, 0], [7, 1, 2, 0, 0, 0], Tree(map[PATH := Node(0, 4)], 4, 1),
      [Echoing(FIRST, 1, [1]), Echoing(SECOND, 1, [2])], [], [Repeating(CACHED, [], [0]).Emit(7).(kv := None)], 3)
  }

  lemma FirstPublished()
    ensures Insert(1, CacheOf(Decided()), [7, 7], [0], 4) ==
      Cache(Tree(map[PATH := Node(0, 4)], 4, 1), Pool([5, 4, 3], [2, 1, 1, 0, 0, 0]))
  {
    var c := CacheOf(Decided());
    assert [7, 7][0 * 1..1 * 1] == [7];
    assert Chunks(1, [7, 7], 1) == Chunks(1, [7, 7], 0) + [[7, 7][0 * 1..1 * 1]] == PATH;
    assert InsertPath(1, [7, 7], [0]) == PATH;
    var c1 := c.(tree := Tree(map[], 4, 0));
    var c2 := Cache(Tree(map[PATH := Node(0, 4)], 4, 1), Incref(c.pool, 0));
    assert PATH[..1] == PATH;
    assert InsertFrom(c2, PATH, [0], 1, 4) == c2;
    assert InsertFrom(c1, PATH, [0], 0, 4) == c2;
    assert c2.pool.ref == [2, 1, 1, 0, 0, 0];
  }

  lemma FirstRetires()
    ensures RetireFrom(WHOLE_PROMPTS, Decided(), 0) == Served()
  {
    var e, r := Decided(), Decided().running[0];
    assert r.IsFinished() && r.AllTokens() == [7, 7];
    assert r.kv.value.length / 1 == 1 && r.Table()[..1] == [0];
    assert FullBlocks(WHOLE_PROMPTS, r) == [0];
    FirstPublished();
    hide Insert, Marks;
    var p := CommitPrefix(WHOLE_PROMPTS, e, r);
    assert p.pool == Pool([5, 4, 3], [2, 1, 1, 0, 0, 0]);
    assert FreeMany(p.pool, [0]) == FreeMany(Free(p.pool, 0), []) == Pool([5, 4, 3], [1, 1, 1, 0, 0, 0]);
    assert Without(e.running, 0) == Served().running;
    assert Retire(WHOLE_PROMPTS, e, 0) == Served();
    hide Retire;
    NobodyFinished(Served(), 0);
  }

  lemma {:induction false} NobodyFinished(e: State, i: nat)
    requires i <= |e.running| && forall r :: r in e.running ==> !r.IsFinished()
    ensures RetireFrom(WHOLE_PROMPTS, e, i) == e
    decreases |e.running| - i
  {
    if i < |e.running| {
      NobodyFinished(e, i + 1);
    }
  }

  lemma FirstStep()
    ensures Step(WHOLE_PROMPTS, ECHO, START) == Some(Served())
    ensures FreeListOk(Served().pool)
  {
    assert Threefold().decodes == [] && !Empty(Threefold());
    assert Decided().pool == Served().pool;
    FirstPlan();
    FirstPrefills();
    FirstRetires();
    hide Schedule, ExecChunks, RetireFrom, Decided, Served, Threefold, FreeListOk;
  }

  // ---- the second step: a cache hit is rolled back

  function Arrived(): State {
    Served().(waiting := [VICTIM], nextId := 4)
  }

  /** A decode whose block is free. */
  lemma DecodeFits(w: Work, i: nat, r: Req, n: nat, table: seq<nat>)
    requires |r.prompt| == 1 && 0 < n == |table| && i < |w.st.running| && w.st.running[i] == Echoing(r, n, table)
    requires Find(w.st.running, r.id) == i && Available(WHOLE_PROMPTS, w) >= 1
    ensures DecodeOne(WHOLE_PROMPTS, w, r.id) == TakeDecode(w, r.id, 1)
  {
    CeilDivUnique(n + 1, 1, n + 1);
    hide MakeRoom;
  }

  lemma FirstChunks()
    ensures Usable(1, VICTIM.prompt) == [[7], [8]]
  {
    var p := VICTIM.prompt;
    assert p[0..1] == [7] && p[1..2] == [8];
    assert Chunks(1, p, 0) == [];
    assert Chunks(1, p, 1) == Chunks(1, p, 0) + [p[0 * 1..1 * 1]];
    assert Chunks(1, p, 2) == Chunks(1, p, 1) + [p[1 * 1..2 * 1]];
  }

  lemma HitIs(t: Tree)
    requires t.nodes == map[PATH := Node(0, 4)]
    ensures MatchBlocks(1, t, VICTIM.prompt) == [0]
    ensures MatchTree(1, t, VICTIM.prompt) == t.(nodes := map[PATH := Node(0, t.clock + 1)], clock := t.clock + 1)
  {
    FirstChunks();
    var path := Usable(1, VICTIM.prompt);
    assert path[..1] == PATH;
    assert path[..2] != PATH;
    assert Follow(t.nodes, path, 1) == 1;
    assert Stamp(t.nodes, PATH, t.clock + 1) == map[PATH := Node(0, t.clock + 1)];
  }

  lemma MissIs(t: Tree)
    requires t.nodes == map[]
    ensures MatchBlocks(1, t, VICTIM.prompt) == []
    ensures MatchTree(1, t, VICTIM.prompt) == t.(clock := t.clock + 1)
  {
    FirstChunks();
    assert Follow(t.nodes, Usable(1, VICTIM.prompt), 0) == 0;
  }

  /** The engine with the victim's admission undone. */
  function Undone(): State {
    Arrived().(tree := Tree(map[PATH := Node(0, 5)], 5, 1), waiting := [UNDONE])
  }

  /** One token of budget is left: the two prompt tokens after the hit do not fit, and the admission is undone. */
  lemma RollsBack()
    ensures AdmitPhase(WHOLE_PROMPTS, Work(Arrived(), 1, 2, {1, 2}, [1, 2], [])) ==
      Work(Undone(), 1, 2, {1, 2}, [1, 2], [])
  {
    var w := Work(Arrived(), 1, 2, {1, 2}, [1, 2], []);
    HitIs(w.st.tree);
    hide MatchBlocks, MatchTree, Marks;
    var r := VICTIM.(kv := Some(SeqKV([0], 1, 1)), computed := 1);
    var e := Attach(WHOLE_PROMPTS, w.st);
    assert IncrefMany(w.st.pool, [0]) == IncrefMany(Incref(w.st.pool, 0), []) == Pool([5, 4, 3], [2, 1, 1, 0, 0, 0]);
    assert e.waiting == [r] && e.pool == Pool([5, 4, 3], [2, 1, 1, 0, 0, 0]);
    CeilDivUnique(2, 1, 2);
    var a := Admit(e);
    assert a.running == w.st.running + [r.(status := Prefill)] && a.waiting == [];
    assert MakeChunk(WHOLE_PROMPTS, r.(status := Prefill), 1, 1) == None;
    assert FreeMany(e.pool, [0]) == FreeMany(Free(e.pool, 0), []) == Pool([5, 4, 3], [1, 1, 1, 0, 0, 0]);
    assert RollBack(a).running == w.st.running && RollBack(a).waiting == [UNDONE];
  }

  /** Two requests decode, and nobody is in its prefill. */
  lemma TwoRunning(a: Req, b: Req, n: nat, s: seq<nat>, t: seq<nat>)
    requires |a.prompt| == 1 == |b.prompt| && a.id != b.id && 0 < n == |s| == |t|
    ensures var q := [Echoing(a, n, s), Echoing(b, n, t)];
      && Find(q, a.id) == 0 && Find(q, b.id) == 1 && Ids(q) == [a.id, b.id]
      && q[0].PrefillDone() && q[1].PrefillDone()
  {
    FindAt([Echoing(a, n, s), Echoing(b, n, t)], 0);
    FindAt([Echoing(a, n, s), Echoing(b, n, t)], 1);
  }

  lemma DecodeTurns(w: Work, id: nat, ids: seq<nat>)
    requires w.budget > 0
    ensures DecodePhase(WHOLE_PROMPTS, w, [id] + ids) ==
      DecodePhase(WHOLE_PROMPTS, DecodeOne(WHOLE_PROMPTS, w, id), ids)
  {
    assert ([id] + ids)[1..] == ids;
    hide DecodeOne;
  }

  lemma TwoDecodes(w: Work, i: nat, j: nat, w1: Work, w2: Work)
    requires w.budget > 0 && DecodeOne(WHOLE_PROMPTS, w, i) == w1
    requires w1.budget > 0 && DecodeOne(WHOLE_PROMPTS, w1, j) == w2
    ensures DecodePhase(WHOLE_PROMPTS, w, [i, j]) == w2
  {
    hide *;
    assert [i] + ([j] + []) == [i, j];
    DecodeTurns(w, i, [j] + []);
    DecodeTurns(w1, j, []);
    NoTurns(w2);
  }

  lemma NoTurns(w: Work)
    ensures DecodePhase(WHOLE_PROMPTS, w, []) == w
  {
  }

  lemma NoPrefills(w: Work)
    requires |w.st.running| == 2 && w.st.running[0].PrefillDone() && w.st.running[1].PrefillDone()
    ensures PrefillPhase(WHOLE_PROMPTS, w, 0) == w
  {
    assert PrefillPhase(WHOLE_PROMPTS, w, 2) == w;
    assert PrefillPhase(WHOLE_PROMPTS, w, 1) == w;
  }

  lemma NotStalled(w: Work)
    requires w.decodes != []
    ensures ForceHead(WHOLE_PROMPTS, BreakStall(WHOLE_PROMPTS, w)) == w
  {
  }

  lemma SecondPlan()
    ensures Schedule(WHOLE_PROMPTS, Arrived()) == Work(Undone(), 1, 2, {1, 2}, [1, 2], [])
  {
    var w0 := Work(Arrived(), 3, 0, {}, [], []);
    var w1 := Work(Arrived(), 2, 1, {1}, [1], []);
    var w2 := Work(Arrived(), 1, 2, {1, 2}, [1, 2], []);
    var w3 := Work(Undone(), 1, 2, {1, 2}, [1, 2], []);
    TwoRunning(FIRST, SECOND, 1, [1], [2]);
    assert TakeDecode(w0, 1, 1) == w1 && TakeDecode(w1, 2, 1) == w2;
    assert Available(WHOLE_PROMPTS, w0) == 3 && Available(WHOLE_PROMPTS, w1) == 2;
    assert Arrived().running == [Echoing(FIRST, 1, [1]), Echoing(SECOND, 1, [2])];
    hide Echoing, Find, Marks, DecodeOne, DecodePhase, PrefillPhase, AdmitPhase, BreakStall, ForceHead, Ids, Arrived,
      Undone;
    DecodeFits(w0, 0, FIRST, 1, [1]);
    DecodeFits(w1, 1, SECOND, 1, [2]);
    TwoDecodes(w0, 1, 2, w1, w2);
    NoPrefills(w2);
    RollsBack();
    NotStalled(w3);
  }

  // ---- carrying out two decodes

  lemma DecodeRuns(rest: seq<nat>, b: nat, ref: seq<nat>, ts: seq<Token>, tree: Tree, running: seq<Req>,
                   waiting: seq<Req>, done: seq<Req>, i: nat, r: Req, table: seq<nat>)
    requires |ref| == |ts| && b < |ts| && FreeListOk(Pool(rest + [b], ref))
    requires Fresh(r) && r.maxTokens == 5 && r.ignoreEos && 0 < |table| < 4 && forall k :: 0 <= k < |table| ==>
      table[k] < |ts|
    requires i < |running| && running[i] == Echoing(r, |table|, table) && Find(running, r.id) == i
    requires ts[table[0]] == r.prompt[0]
    ensures ExecDecode(WHOLE_PROMPTS, ECHO, Stage(rest + [b], ref, ts, tree, running, waiting, done, 4), r.id) ==
      Some(Stage(rest, ref[b := 1], ts[b := r.prompt[0]], tree, running[i := Echoing(r, |table| + 1, table + [b])],
        waiting, done, 4))
    ensures FreeListOk(Pool(rest, ref[b := 1]))
  {
    var e := Stage(rest + [b], ref, ts, tree, running, waiting, done, 4);
    assert Marks(ts)[table[0]] == [Mark(r.prompt[0])];
    hide Shaped, FreeListOk, Marks, ExecDecode, Find;
    StageIs(rest, b, ref, ts, r.prompt[0]);
    assert CanFeed(WHOLE_PROMPTS, e, running[i], r.prompt);
    OneMore(e, i, r, table, rest, b);
  }

  lemma DecodeThen(e: State, id: nat, ids: seq<nat>, e': State)
    requires ExecDecode(WHOLE_PROMPTS, ECHO, e, id) == Some(e')
    ensures ExecDecodes(WHOLE_PROMPTS, ECHO, e, [id] + ids) == ExecDecodes(WHOLE_PROMPTS, ECHO, e', ids)
  {
    assert ([id] + ids)[1..] == ids;
    hide ExecDecode;
  }

  lemma NoDecodes(e: State)
    ensures ExecDecodes(WHOLE_PROMPTS, ECHO, e, []) == Some(e)
  {
  }

  lemma TwoDecodesRun(e0: State, e1: State, e2: State, i: nat, j: nat)
    requires ExecDecode(WHOLE_PROMPTS, ECHO, e0, i) == Some(e1) && ExecDecode(WHOLE_PROMPTS, ECHO, e1, j) == Some(e2)
    ensures ExecDecodes(WHOLE_PROMPTS, ECHO, e0, [i, j]) == Some(e2)
  {
    hide *;
    assert [i] + ([j] + []) == [i, j];
    DecodeThen(e0, i, [j] + [], e1);
    DecodeThen(e1, j, [], e2);
    NoDecodes(e2);
  }

  /** The second step's outcome: both requests have grown by a block, one block is free. */
  function Grown(): State {
    Stage([5], [1, 1, 1, 1, 1, 0], [7, 1, 2, 1, 2, 0], Tree(map[PATH := Node(0, 5)], 5, 1),
      [Echoing(FIRST, 2, [1, 3]), Echoing(SECOND, 2, [2, 4])], [UNDONE], Served().done, 4)
  }

  function HalfGrown(): State {
    Stage([5, 4], [1, 1, 1, 1, 0, 0], [7, 1, 2, 1, 0, 0], Tree(map[PATH := Node(0, 5)], 5, 1),
      [Echoing(FIRST, 2, [1, 3]), Echoing(SECOND, 1, [2])], [UNDONE], Served().done, 4)
  }

  lemma SecondStep()
    requires FreeListOk(Served().pool)
    ensures Step(WHOLE_PROMPTS, ECHO, Arrived()) == Some(Grown())
    ensures FreeListOk(Grown().pool)
  {
    var w := Work(Undone(), 1, 2, {1, 2}, [1, 2], []);
    assert forall r :: r in Grown().running ==> !r.IsFinished();
    hide *;
    SecondPlan();
    GrowFirst();
    GrowSecond();
    StepDecodes(Arrived(), w, HalfGrown(), Grown());
  }

  lemma GrowFirst()
    requires FreeListOk(Served().pool)
    ensures ExecDecode(WHOLE_PROMPTS, ECHO, Undone(), 1) == Some(HalfGrown())
    ensures FreeListOk(HalfGrown().pool)
  {
    var q, tree, done := Undone().running, Undone().tree, Undone().done;
    TwoRunning(FIRST, SECOND, 1, [1], [2]);
    assert Undone() == Stage([5, 4] + [3], [1, 1, 1, 0, 0, 0], [7, 1, 2, 0, 0, 0], tree, q, [UNDONE], done, 4);
    assert [1] + [3] == [1, 3] && q[0 := Echoing(FIRST, 2, [1, 3])] == HalfGrown().running;
    assert [1, 1, 1, 0, 0, 0][3 := 1] == [1, 1, 1, 1, 0, 0] && [7, 1, 2, 0, 0, 0][3 := 1] == [7, 1, 2, 1, 0, 0];
    assert FIRST.id == 1 && FIRST.prompt[0] == 1 && Fresh(FIRST);
    hide FreeListOk, Find, ExecDecode, Marks, Echoing, Fresh;
    DecodeRuns([5, 4], 3, [1, 1, 1, 0, 0, 0], [7, 1, 2, 0, 0, 0], tree, q, [UNDONE], done, 0, FIRST, [1]);
  }

  lemma GrowSecond()
    requires FreeListOk(HalfGrown().pool)
    ensures ExecDecode(WHOLE_PROMPTS, ECHO, HalfGrown(), 2) == Some(Grown())
    ensures FreeListOk(Grown().pool)
  {
    var q, tree, done := HalfGrown().running, HalfGrown().tree, HalfGrown().done;
    FindAt(q, 1);
    assert HalfGrown() == Stage([5] + [4], [1, 1, 1, 1, 0, 0], [7, 1, 2, 1, 0, 0], tree, q, [UNDONE], done, 4);
    assert [2] + [4] == [2, 4] && q[1 := Echoing(SECOND, 2, [2, 4])] == Grown().running;
    assert [1, 1, 1, 1, 0, 0][4 := 1] == [1, 1, 1, 1, 1, 0] && [7, 1, 2, 1, 0, 0][4 := 2] == [7, 1, 2, 1, 2, 0];
    assert SECOND.id == 2 && SECOND.prompt[0] == 2 && Fresh(SECOND);
    hide FreeListOk, Find, ExecDecode, Marks, Echoing, Fresh;
    DecodeRuns([5], 4, [1, 1, 1, 1, 0, 0], [7, 1, 2, 1, 0, 0], tree, q, [UNDONE], done, 1, SECOND, [2]);
  }

  /** A step of two decodes after which nobody has finished. */
  lemma StepDecodes(e: State, w: Work, e1: State, e2: State)
    requires Schedule(WHOLE_PROMPTS, e) == w && w.chunks == [] && w.decodes == [1, 2]
    requires ExecDecode(WHOLE_PROMPTS, ECHO, w.st, 1) == Some(e1) && ExecDecode(WHOLE_PROMPTS, ECHO, e1, 2) == Some(e2)
    requires forall r :: r in e2.running ==> !r.IsFinished()
    ensures Step(WHOLE_PROMPTS, ECHO, e) == Some(e2)
  {
    hide Schedule, ExecDecode, ExecDecodes, RetireFrom;
    TwoDecodesRun(w.st, e1, e2, 1, 2);
    NobodyFinished(e2, 0);
  }

  // ---- the third step: the cached block is evicted, the next lookup misses

  /** The victim with an empty table, still at position 1. */
  const STRANDED := UNDONE.(kv := Some(SeqKV([], 0, 0)))

  function Evicted(): State {
    Grown().(pool := Pool([5, 0], [0, 1, 1, 1, 1, 0]), tree := Tree(map[], 5, 0))
  }

  lemma CachedBlockGoes()
    ensures Reclaim(Grown(), 1) == Evicted()
  {
    var c := CacheOf(Grown());
    assert c.tree.nodes == map[PATH := Node(0, 5)];
    assert IsLeaf(c.tree.nodes, PATH) && !Pinned(c, PATH);
    assert Evictable(c, PATH);
    assert Victim(c) == Some(PATH);
    var d := Remove(c, PATH);
    assert d.tree.nodes == map[];
    assert d == Cache(Tree(map[], 5, 0), Pool([5, 0], [0, 1, 1, 1, 1, 0]));
    assert Evict(d, 0) == d;
    hide Victim, Pinned, IsLeaf, Marks;
    assert Evict(c, 1) == d;
  }

  lemma RoomIsMade(w: Work)
    requires w == Work(Grown(), 2, 1, {1}, [1], [])
    ensures DecodeOne(WHOLE_PROMPTS, w, 2) == Work(Evicted(), 1, 2, {1, 2}, [1, 2], [])
  {
    TwoRunning(FIRST, SECOND, 2, [1, 3], [2, 4]);
    CeilDivUnique(3, 1, 3);
    CachedBlockGoes();
    hide Reclaim, Marks, Find;
    assert MakeRoom(WHOLE_PROMPTS, Grown(), 2, {1} + {2}) == Evicted();
    hide MakeRoom;
    var r := w.st.running[1];
    assert r.id == 2 && r.PrefillDone() && Need(WHOLE_PROMPTS, r, r.computed + 1) == 1;
    assert Available(WHOLE_PROMPTS, w) == 0 && Available(WHOLE_PROMPTS, w.(st := Evicted())) == 1;
  }

  function Stranded(): State {
    Evicted().(tree := Tree(map[], 6, 0), waiting := [STRANDED])
  }

  lemma MissesNow()
    ensures AdmitPhase(WHOLE_PROMPTS, Work(Evicted(), 1, 2, {1, 2}, [1, 2], [])) ==
      Work(Stranded(), 1, 2, {1, 2}, [1, 2], [])
  {
    var w := Work(Evicted(), 1, 2, {1, 2}, [1, 2], []);
    MissIs(w.st.tree);
    hide MatchBlocks, MatchTree, Marks;
    var e := Attach(WHOLE_PROMPTS, w.st);
    assert IncrefMany(w.st.pool, []) == w.st.pool;
    assert e == Stranded();
    CeilDivUnique(2, 1, 2);
    assert Need(WHOLE_PROMPTS, STRANDED, 2) == 2;
  }

  lemma ThirdPlan()
    ensures Schedule(WHOLE_PROMPTS, Grown()) == Work(Stranded(), 1, 2, {1, 2}, [1, 2], [])
  {
    var w0 := Work(Grown(), 3, 0, {}, [], []);
    var w1 := Work(Grown(), 2, 1, {1}, [1], []);
    var w2 := Work(Evicted(), 1, 2, {1, 2}, [1, 2], []);
    var w3 := Work(Stranded(), 1, 2, {1, 2}, [1, 2], []);
    TwoRunning(FIRST, SECOND, 2, [1, 3], [2, 4]);
    assert TakeDecode(w0, 1, 1) == w1 && Available(WHOLE_PROMPTS, w0) == 1;
    assert Grown().running == Evicted().running == [Echoing(FIRST, 2, [1, 3]), Echoing(SECOND, 2, [2, 4])];
    hide Echoing, Find, Marks, DecodeOne, DecodePhase, PrefillPhase, AdmitPhase, BreakStall, ForceHead, Ids, Grown,
      Evicted, Stranded;
    DecodeFits(w0, 0, FIRST, 2, [1, 3]);
    RoomIsMade(w1);
    TwoDecodes(w0, 1, 2, w1, w2);
    NoPrefills(w2);
    MissesNow();
    NotStalled(w3);
  }

  function HalfFull(): State {
    Stage([5], [1, 1, 1, 1, 1, 0], [1, 1, 2, 1, 2, 0], Tree(map[], 6, 0),
      [Echoing(FIRST, 3, [1, 3, 0]), Echoing(SECOND, 2, [2, 4])], [STRANDED], Served().done, 4)
  }

  function Full(): State {
    Stage([], [1, 1, 1, 1, 1, 1], [1, 1, 2, 1, 2, 2], Tree(map[], 6, 0),
      [Echoing(FIRST, 3, [1, 3, 0]), Echoing(SECOND, 3, [2, 4, 5])], [STRANDED], Served().done, 4)
  }

  lemma CachedBlockFree()
    requires FreeListOk(Grown().pool)
    ensures FreeListOk(Pool([5] + [0], [0, 1, 1, 1, 1, 0]))
  {
    FreeFreeList(Grown().pool, 0);
    hide FreeListOk, Marks;
    assert Free(Grown().pool, 0) == Pool([5] + [0], [0, 1, 1, 1, 1, 0]);
  }

  lemma FillFirst()
    requires FreeListOk(Grown().pool)
    ensures ExecDecode(WHOLE_PROMPTS, ECHO, Stranded(), 1) == Some(HalfFull())
    ensures FreeListOk(HalfFull().pool)
  {
    var q, tree, done := Stranded().running, Stranded().tree, Stranded().done;
    CachedBlockFree();
    TwoRunning(FIRST, SECOND, 2, [1, 3], [2, 4]);
    assert Stranded() == Stage([5] + [0], [0, 1, 1, 1, 1, 0], [7, 1, 2, 1, 2, 0], tree, q, [STRANDED], done, 4);
    assert [1, 3] + [0] == [1, 3, 0] && q[0 := Echoing(FIRST, 3, [1, 3, 0])] == HalfFull().running;
    assert [0, 1, 1, 1, 1, 0][0 := 1] == [1, 1, 1, 1, 1, 0] && [7, 1, 2, 1, 2, 0][0 := 1] == [1, 1, 2, 1, 2, 0];
    assert FIRST.id == 1 && FIRST.prompt[0] == 1 && Fresh(FIRST);
    hide FreeListOk, Find, ExecDecode, Marks, Echoing, Fresh;
    DecodeRuns([5], 0, [0, 1, 1, 1, 1, 0], [7, 1, 2, 1, 2, 0], tree, q, [STRANDED], done, 0, FIRST, [1, 3]);
  }

  lemma FillSecond()
    requires FreeListOk(HalfFull().pool)
    ensures ExecDecode(WHOLE_PROMPTS, ECHO, HalfFull(), 2) == Some(Full())
    ensures FreeListOk(Full().pool)
  {
    var q, tree, done := HalfFull().running, HalfFull().tree, HalfFull().done;
    FindAt(q, 1);
    assert HalfFull() == Stage([] + [5], [1, 1, 1, 1, 1, 0], [1, 1, 2, 1, 2, 0], tree, q, [STRANDED], done, 4);
    assert [2, 4] + [5] == [2, 4, 5] && q[1 := Echoing(SECOND, 3, [2, 4, 5])] == Full().running;
    assert [1, 1, 1, 1, 1, 0][5 := 1] == [1, 1, 1, 1, 1, 1] && [1, 1, 2, 1, 2, 0][5 := 2] == [1, 1, 2, 1, 2, 2];
    assert SECOND.id == 2 && SECOND.prompt[0] == 2 && Fresh(SECOND);
    hide FreeListOk, Find, ExecDecode, Marks, Echoing, Fresh;
    DecodeRuns([], 5, [1, 1, 1, 1, 1, 0], [1, 1, 2, 1, 2, 0], tree, q, [STRANDED], done, 1, SECOND, [2, 4]);
  }

  lemma ThirdStep()
    requires FreeListOk(Grown().pool)
    ensures Step(WHOLE_PROMPTS, ECHO, Grown()) == Some(Full())
    ensures FreeListOk(Full().pool)
  {
    var w := Work(Stranded(), 1, 2, {1, 2}, [1, 2], []);
    assert forall r :: r in Full().running ==> !r.IsFinished();
    hide *;
    ThirdPlan();
    FillFirst();
    FillSecond();
    StepDecodes(Grown(), w, HalfFull(), Full());
  }

  // ---- the other two are cancelled

  function Half(): State {
    Stage([1, 3, 0], [0, 0, 1, 0, 1, 1], [1, 1, 2, 1, 2, 2], Tree(map[], 6, 0), [Echoing(SECOND, 3, [2, 4, 5])],
      [STRANDED],
      Served().done + [Echoing(FIRST, 3, [1, 3, 0]).(kv := None, status := Aborted)], 4)
  }

  function Alone(): State {
    Stage([1, 3, 0, 2, 4, 5], [0, 0, 0, 0, 0, 0], [1, 1, 2, 1, 2, 2], Tree(map[], 6, 0), [], [STRANDED],
      Half().done + [Echoing(SECOND, 3, [2, 4, 5]).(kv := None, status := Aborted)], 4)
  }

  lemma FreeThree(p: Pool, a: nat, b: nat, c: nat)
    requires FreeListOk(p)
    ensures FreeMany(p, [a, b, c]) == Free(Free(Free(p, a), b), c) && FreeListOk(FreeMany(p, [a, b, c]))
  {
    assert [a, b, c][1..] == [b, c] && [b, c][1..] == [c] && [c][1..] == [];
    FreeFreeList(p, a);
    FreeFreeList(Free(p, a), b);
    FreeFreeList(Free(Free(p, a), b), c);
    hide Free, FreeListOk;
    assert FreeMany(p, [a, b, c]) == FreeMany(Free(p, a), [b, c]);
    assert FreeMany(Free(p, a), [b, c]) == FreeMany(Free(Free(p, a), b), [c]);
  }

  lemma CancelFirst(e: State)
    requires e.running != [] && |e.waiting| == 1 && e.waiting[0].id != e.running[0].id
    ensures Abort(e, e.running[0].id) == e.(pool := FreeMany(e.pool, e.running[0].Table()), running := e.running[1..],
      done := e.done + [e.running[0].(kv := None, status := Aborted)])
  {
    assert e.waiting[1..] == [];
    assert Find(e.waiting, e.running[0].id) == 1;
    assert Without(e.running, 0) == e.running[1..];
  }

  lemma FirstFrees()
    ensures Free(Pool([], [1, 1, 1, 1, 1, 1]), 1) == Pool([1], [1, 0, 1, 1, 1, 1])
    ensures Free(Pool([1], [1, 0, 1, 1, 1, 1]), 3) == Pool([1, 3], [1, 0, 1, 0, 1, 1])
    ensures Free(Pool([1, 3], [1, 0, 1, 0, 1, 1]), 0) == Pool([1, 3, 0], [0, 0, 1, 0, 1, 1])
  {
  }

  lemma SecondFrees()
    ensures Free(Pool([1, 3, 0], [0, 0, 1, 0, 1, 1]), 2) == Pool([1, 3, 0, 2], [0, 0, 0, 0, 1, 1])
    ensures Free(Pool([1, 3, 0, 2], [0, 0, 0, 0, 1, 1]), 4) == Pool([1, 3, 0, 2, 4], [0, 0, 0, 0, 0, 1])
    ensures Free(Pool([1, 3, 0, 2, 4], [0, 0, 0, 0, 0, 1]), 5) == Pool([1, 3, 0, 2, 4, 5], [0, 0, 0, 0, 0, 0])
  {
  }

  lemma FirstFreed()
    requires FreeListOk(Full().pool)
    ensures FreeMany(Full().pool, [1, 3, 0]) == Half().pool && FreeListOk(Half().pool)
  {
    FreeThree(Full().pool, 1, 3, 0);
    assert Full().pool == Pool([], [1, 1, 1, 1, 1, 1]) && Half().pool == Pool([1, 3, 0], [0, 0, 1, 0, 1, 1]);
    hide *;
    FirstFrees();
  }

  lemma FirstCancelled()
    requires FreeListOk(Full().pool)
    ensures Abort(Full(), 1) == Half() && FreeListOk(Half().pool)
  {
    FirstFreed();
    CancelFirst(Full());
    hide FreeListOk, FreeMany, Marks, Abort;
    assert Full().running[1..] == Half().running;
  }

  lemma SecondFreed()
    requires FreeListOk(Half().pool)
    ensures FreeMany(Half().pool, [2, 4, 5]) == Alone().pool && FreeListOk(Alone().pool)
  {
    FreeThree(Half().pool, 2, 4, 5);
    assert Half().pool == Pool([1, 3, 0], [0, 0, 1, 0, 1, 1])
      && Alone().pool == Pool([1, 3, 0, 2, 4, 5], [0, 0, 0, 0, 0, 0]);
    hide *;
    SecondFrees();
  }

  lemma SecondCancelled()
    requires FreeListOk(Half().pool)
    ensures Abort(Half(), 2) == Alone() && FreeListOk(Alone().pool)
  {
    SecondFreed();
    CancelFirst(Half());
    hide FreeListOk, FreeMany, Marks, Abort;
    assert Half().running[1..] == Alone().running;
  }

  // ---- the last step: the victim starts past a cell nobody wrote for it

  const STARTED := STRANDED.(status := Prefill)

  function Opened4(): State {
    Alone().(running := [STARTED], waiting := [])
  }

  lemma LastPlan()
    ensures Schedule(WHOLE_PROMPTS, Alone()) == Work(Opened4(), 1, 3, {3}, [], [Slice(3, 1, 2, true)])
  {
    var w := Work(Alone(), 3, 0, {}, [], []);
    var w2 := Work(Opened4(), 1, 3, {3}, [], [Slice(3, 1, 2, true)]);
    NothingRuns(w);
    NothingLeft(w2);
    hide BreakStall, ForceHead, Marks, Schedule;
    CeilDivUnique(2, 1, 2);
    CeilDivUnique(3, 1, 3);
    assert Admit(Alone()) == Opened4() by { assert [] + [STARTED] == [STARTED]; }
    assert MakeChunk(WHOLE_PROMPTS, STARTED, 3, 6) == Some(Slice(3, 1, 2, true));
    assert Available(WHOLE_PROMPTS, w) == 6 && Need(WHOLE_PROMPTS, STRANDED, 2) == 2
      && Attach(WHOLE_PROMPTS, w.st) == w.st;
    assert AdmitPhase(WHOLE_PROMPTS, w2) == w2;
    assert AdmitPhase(WHOLE_PROMPTS, w) == w2;
  }

  lemma ThreeBlocks(p: Pool)
    requires FreeListOk(p) && p == Alone().pool
    ensures NextBlocks(p, 3) == [5, 4, 2] && AllocateMany(p, 3) == Pool([1, 3, 0], [0, 0, 1, 0, 1, 1])
  {
    var a := Pool([1, 3, 0, 2, 4], [0, 0, 0, 0, 0, 1]);
    var b := Pool([1, 3, 0, 2], [0, 0, 0, 0, 1, 1]);
    var c := Pool([1, 3, 0], [0, 0, 1, 0, 1, 1]);
    assert Allocate(p) == a && Allocate(a) == b && Allocate(b) == c;
    assert AllocateMany(b, 1) == AllocateMany(c, 0) == c;
    assert AllocateMany(a, 2) == AllocateMany(b, 1);
  }

  /** The table grown for three tokens, before anything is written. */
  function GrownTable(): Written {
    Written(Store(Pool([1, 3, 0], [0, 0, 1, 0, 1, 1]), Alone().mem), [5, 4, 2])
  }

  lemma TableGrows()
    requires FreeListOk(Alone().pool)
    ensures EnsureCapacity(1, StoreOf(Opened4()), [], 3) == GrownTable()
    ensures Shaped(1, StoreOf(Opened4())) && Shaped(1, GrownTable().store)
    ensures InRange(GrownTable().store, GrownTable().table)
    ensures FreeListOk(GrownTable().store.pool) && PrivateFrom(GrownTable().store.pool, GrownTable().table, 0)
  {
    CeilDivUnique(3, 1, 3);
    ThreeBlocks(Opened4().pool);
    AllocateManyFreeList(Opened4().pool, 3);
    hide FreeListOk, AllocateMany, NextBlocks;
    assert [] + [5, 4, 2] == [5, 4, 2];
  }

  /** Position 0 reads what the second request has left in block 5. */
  lemma LeftoverView()
    requires Shaped(1, GrownTable().store) && InRange(GrownTable().store, GrownTable().table)
    ensures Gather(1, GrownTable().store, GrownTable().table, 1) == [Mark(2)]
  {
    var g := GrownTable();
    var view := Gather(1, g.store, g.table, 1);
    assert 0 / 1 == 0 && 0 % 1 == 0;
    assert view[0] == At(1, g.store.mem, g.table, 0);
    assert g.store.mem[5] == [Mark(2)];
  }

  lemma ReadsLeftovers() returns (p: Pass)
    requires FreeListOk(Alone().pool)
    ensures Forward(WHOLE_PROMPTS, ECHO, Opened4(), STARTED, 1, [8, 9]) == Some(p) && p.token == 2
  {
    var e, g := Opened4(), GrownTable();
    TableGrows();
    LeftoverView();
    TwoColumns([Mark(2)], 8, 9);
    ReadMark(2);
    var cols := [Mark(8), Mark(9)];
    assert STARTED.Table() == [] && e.pool == Alone().pool;
    hide Gather, Extend, Shaped, FreeListOk, WriteFrom, EnsureCapacity, Marks, InRange, PrivateFrom, Mark, Read, Alone;
    WriteFromPrivate(1, g.store, g.table, 1, cols, 0);
    var all := [Mark(2)] + cols;
    assert all[1..] == cols && all[..|all| - 1] == [Mark(2), Mark(8)] && [8, 9][1] == 9;
    var w := Write(1, StoreOf(e), [], 1, cols);
    p := Pass(w.store, w.table, 2);
  }

  lemma TwoColumns(view: seq<Column>, t: Token, u: Token)
    ensures Extend(ECHO, view, [t, u]) == view + [Mark(t), Mark(u)]
  {
    assert [t, u][1..] == [u] && [u][1..] == [];
    assert Extend(ECHO, view, [t, u]) == Extend(ECHO, view + [Mark(t)], [u]);
    assert Extend(ECHO, view + [Mark(t)], [u]) == Extend(ECHO, view + [Mark(t)] + [Mark(u)], []);
  }

  /** What the victim has when it finishes. */
  function Wronged(p: Pass): Req {
    Advance(STARTED, p, 3).(status := Running).Emit(2)
  }

  function Wrong(p: Pass): State {
    Commit(Opened4(), 0, p, Wronged(p))
  }

  lemma LastChunk(p: Pass)
    requires Forward(WHOLE_PROMPTS, ECHO, Opened4(), STARTED, 1, [8, 9]) == Some(p) && p.token == 2
    ensures ExecChunks(WHOLE_PROMPTS, ECHO, Opened4(), [Slice(3, 1, 2, true)]) == Some(Wrong(p))
  {
    var c := Slice(3, 1, 2, true);
    assert STARTED.AllTokens() == [7, 8, 9] && STARTED.PrefillTokens() == [7, 8, 9];
    assert [7, 8, 9][1..1 + 2] == [8, 9];
    FindAt(Opened4().running, 0);
    assert Find(Opened4().running, 3) == 0;
    hide Forward, Marks, Find;
    assert Opened4().running[0] == STARTED && STARTED.output == [] && c.final;
    assert ExecChunk(WHOLE_PROMPTS, ECHO, Opened4(), c) == Some(Wrong(p));
    hide ExecChunk, ExecChunks;
    ChunkThen(Opened4(), c, [], Wrong(p));
    NoChunks(Wrong(p));
    assert [c] + [] == [c];
  }

  lemma LastRetires(e: State, r: Req)
    requires e.running == [r] && r.IsFinished()
    ensures RetireFrom(WHOLE_PROMPTS, e, 0).done == e.done + [r.(kv := None)]
  {
    var p := CommitPrefix(WHOLE_PROMPTS, e, r);
    assert p.running == e.running && p.done == e.done by { hide Insert; }
    hide CommitPrefix;
    var e' := Retire(WHOLE_PROMPTS, e, 0);
    assert e'.running == [] && e'.done == e.done + [r.(kv := None)];
    hide Retire;
    assert RetireFrom(WHOLE_PROMPTS, e', 0) == e';
  }

  lemma WrongedIs(p: Pass)
    ensures Wrong(p).running == [Wronged(p)] && Wronged(p).IsFinished()
    ensures var r := Wronged(p).(kv := None);
      r.status == Finished && r.prompt == [7, 8, 9] && r.output == [2] && r.maxTokens == 1 && r.ignoreEos
  {
  }

  lemma LastWork(e2: State)
    requires Schedule(WHOLE_PROMPTS, Alone()) == Work(Opened4(), 1, 3, {3}, [], [Slice(3, 1, 2, true)])
    requires ExecChunks(WHOLE_PROMPTS, ECHO, Opened4(), [Slice(3, 1, 2, true)]) == Some(e2)
    ensures Step(WHOLE_PROMPTS, ECHO, Alone()) == Some(RetireFrom(WHOLE_PROMPTS, e2, 0))
  {
    hide Schedule, ExecChunks, RetireFrom, Alone, Opened4;
    NoDecodes(e2);
    hide ExecDecodes;
  }

  lemma LastStep() returns (e': State, r: Req)
    requires FreeListOk(Alone().pool)
    ensures Step(WHOLE_PROMPTS, ECHO, Alone()) == Some(e')
    ensures r in e'.done && r.status == Finished && r.prompt == [7, 8, 9] && r.output == [2] && r.maxTokens == 1
    ensures r.ignoreEos
  {
    assert WHOLE_PROMPTS.bs == 1;
    hide *;
    LastPlan();
    var p := ReadsLeftovers();
    LastChunk(p);
    WrongedIs(p);
    LastRetires(Wrong(p), Wronged(p));
    LastWork(Wrong(p));
    e' := RetireFrom(WHOLE_PROMPTS, Wrong(p), 0);
    r := Wronged(p).(kv := None);
  }

  // ---- the run as a whole

  const STORY: seq<Event> :=
    SUBMITTED + [Tick] + [Add([7, 8, 9], 1, true)] + [Tick] + [Tick] + [Cancel(1)] + [Cancel(2)] + [Tick]

  lemma Starts()
    ensures FreeListOk(Served().pool)
    ensures Run(WHOLE_PROMPTS, ECHO, SUBMITTED + [Tick] + [Add([7, 8, 9], 1, true)]) == Some(Arrived())
  {
    assert Acceptable(WHOLE_PROMPTS, [7, 8, 9], 1) && Served().waiting + [VICTIM] == [VICTIM];
    Submitted(Served(), [7, 8, 9], 1);
    FirstStep();
    Submissions();
    hide Run, Marks, FreeListOk, Step;
    RunStep(SUBMITTED, Tick, START);
    RunStep(SUBMITTED + [Tick], Add([7, 8, 9], 1, true), Served());
  }

  lemma GoesOn(events: seq<Event>)
    requires FreeListOk(Served().pool) && Run(WHOLE_PROMPTS, ECHO, events) == Some(Arrived())
    ensures Run(WHOLE_PROMPTS, ECHO, events + [Tick] + [Tick] + [Cancel(1)] + [Cancel(2)]) == Some(Alone())
    ensures FreeListOk(Alone().pool)
  {
    hide *;
    SecondStep();
    ThirdStep();
    FirstCancelled();
    SecondCancelled();
    Events();
    RunStep(events, Tick, Arrived());
    RunStep(events + [Tick], Tick, Grown());
    RunStep(events + [Tick] + [Tick], Cancel(1), Full());
    RunStep(events + [Tick] + [Tick] + [Cancel(1)], Cancel(2), Half());
  }

  lemma Events()
    ensures forall e :: Next(WHOLE_PROMPTS, ECHO, e, Tick) == Step(WHOLE_PROMPTS, ECHO, e)
    ensures forall e, id :: Next(WHOLE_PROMPTS, ECHO, e, Cancel(id)) == Some(Abort(e, id))
  {
    hide Step, Abort;
  }

  /** Plain decoding of the victim's prompt repeats its first token. */
  lemma ReferenceIs(r: Req)
    requires r.prompt == [7, 8, 9] && r.maxTokens == 1 && r.ignoreEos
    ensures Reference(ECHO, r) == [7]
  {
    var front := r.prompt[..2];
    assert front == [7, 8] && front[..1] == [7] && [7][..0] == [];
    assert Columns(ECHO, [7]) == Columns(ECHO, []) + [Mark(7)] == [Mark(7)];
    assert Columns(ECHO, [7, 8]) == Columns(ECHO, [7]) + [Mark(8)];
    ReadMark(7);
    assert NextToken(ECHO, r.prompt) == 7;
    assert Continue(ECHO, r.prompt + [7], 0, true) == [];
  }

  /** In this run a request finishes with an output that plain decoding does not give. */
  lemma WrongOutput() returns (e: State, r: Req)
    ensures Run(WHOLE_PROMPTS, ECHO, STORY) == Some(e) && r in e.done && r.status == Finished
    ensures r.prompt == [7, 8, 9] && r.output == [2] && Reference(ECHO, r) == [7]
  {
    Starts();
    GoesOn(SUBMITTED + [Tick] + [Add([7, 8, 9], 1, true)]);
    e, r := LastStep();
    ReferenceIs(r);
    hide Run, Marks, FreeListOk, Step, Alone, Reference;
    RunStep(SUBMITTED + [Tick] + [Add([7, 8, 9], 1, true)] + [Tick] + [Tick] + [Cancel(1)] +
      [Cancel(2)], Tick, Alone());
  }
}
