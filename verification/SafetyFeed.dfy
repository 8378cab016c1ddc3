/** One forward pass of one sequence: its view grows by its own tokens' columns, nobody else's changes. */
module SafetyFeed {
  import opened Blocks
  import opened Paging
  import opened Decoding
  import opened Options
  import opened Radix
  import opened Requests
  import opened Scheduling
  import opened Serving
  import opened Safety
  import opened SafetyMoves

  /** Feeding token by token computes the columns of the whole sequence. */
  lemma {:induction false} ExtendColumns(m: Model, front: seq<Token>, toks: seq<Token>)
    ensures Extend(m, Columns(m, front), toks) == Columns(m, front + toks)
    decreases |toks|
  {
    if toks == [] {
      assert front + toks == front;
    } else {
      var next := front + [toks[0]];
      assert next[..|next| - 1] == front;
      assert Columns(m, next) == Columns(m, front) + [m.col(Columns(m, front), toks[0])];
      ExtendColumns(m, next, toks[1..]);
      assert next + toks[1..] == front + toks;
    }
  }

  /** All references but those of the i-th queued request. */
  ghost function Others(e: State, i: nat): multiset<nat>
    requires i < |Queued(e)|
  {
    Tables(Without(Queued(e), i)) + multiset(NodeBlocks(e.tree.nodes))
  }

  lemma HeldAround(e: State, i: nat)
    requires i < |e.running|
    ensures Queued(e)[i] == e.running[i]
    ensures Held(e) == multiset(e.running[i].Table()) + Others(e, i)
  {
    TablesSplit(Queued(e), i);
    hide Tables, NodeBlocks;
    Regroup(multiset(e.running[i].Table()), Tables(Without(Queued(e), i)), multiset(NodeBlocks(e.tree.nodes)));
  }

  lemma Regroup(a: multiset<nat>, b: multiset<nat>, c: multiset<nat>)
    ensures (a + b) + c == a + (b + c)
  {
  }

  lemma OtherBlocks(e: State, i: nat)
    requires i < |e.running|
    ensures forall b :: b in NodeBlocks(e.tree.nodes) ==> b in Others(e, i)
    ensures forall q, k :: q in Without(Queued(e), i) && 0 <= k < |q.Table()| ==> q.Table()[k] in Others(e, i)
  {
    forall q, k | q in Without(Queued(e), i) && 0 <= k < |q.Table()|
      ensures q.Table()[k] in Others(e, i)
    {
      TablesMember(Without(Queued(e), i), q);
      assert q.Table()[k] in multiset(q.Table());
    }
  }

  /** r' is r after a pass up to `total` tokens: same request, bigger table, same tokens so far. */
  ghost predicate Fed(r: Req, r': Req, table: seq<nat>, total: nat) {
    && r'.id == r.id && r'.prompt == r.prompt
    && r.output <= r'.output
    && r'.kv == Some(SeqKV(table, total, r.Adopted())) && r'.computed == total
  }

  /** What a pass needs: free blocks for it, and the request's own next tokens. */
  ghost predicate Feedable(cfg: Config, e: State, i: nat, toks: seq<Token>)
    requires cfg.bs > 0
  {
    && i < |e.running| && e.running[i].kv.Some? && toks != []
    && var r := e.running[i];
       && r.computed + |toks| <= |r.AllTokens()|
       && toks == r.AllTokens()[r.computed..r.computed + |toks|]
       && r.Adopted() * cfg.bs <= r.computed <= |r.Table()| * cfg.bs
       && Need(cfg, r, r.computed + |toks|) <= |e.pool.free|
  }

  ghost function NewColumns(cfg: Config, m: Model, e: State, i: nat, toks: seq<Token>): seq<Column>
    requires i < |e.running| && e.running[i].computed + |toks| <= |e.running[i].AllTokens()|
  {
    var n := e.running[i].computed;
    Columns(m, e.running[i].AllTokens()[..n + |toks|])[n..]
  }

  lemma PassColumns(cfg: Config, m: Model, e: State, i: nat, toks: seq<Token>)
    requires cfg.bs > 0 && Feedable(cfg, e, i, toks) && ViewOk(cfg, m, e, e.running[i])
    ensures var r, n, cols := e.running[i], e.running[i].computed, NewColumns(cfg, m, e, i, toks);
      && Extend(m, Gather(cfg.bs, StoreOf(e), r.Table(), n), toks) == Columns(m, r.AllTokens()[..n + |toks|])
      && |cols| == |toks|
      && Gather(cfg.bs, StoreOf(e), r.Table(), n) + cols == Columns(m, r.AllTokens()[..n + |toks|])
  {
    hide Gather, Shaped, InRange, Need;
    var r, n := e.running[i], e.running[i].computed;
    FedColumns(m, r.AllTokens(), n, toks);
  }

  lemma FedColumns(m: Model, all: seq<Token>, n: nat, toks: seq<Token>)
    requires n + |toks| <= |all| && toks == all[n..n + |toks|]
    ensures Extend(m, Columns(m, all[..n]), toks) == Columns(m, all[..n + |toks|])
    ensures Columns(m, all[..n]) + Columns(m, all[..n + |toks|])[n..] == Columns(m, all[..n + |toks|])
  {
    hide Columns, Extend;
    var fed := all[..n + |toks|];
    ExtendColumns(m, all[..n], toks);
    assert all[..n] + toks == fed;
    ColumnsPrefix(m, fed, n);
    assert fed[..n] == all[..n];
  }

  /** What the pass leaves in the store. */
  ghost function PassWrite(cfg: Config, m: Model, e: State, i: nat, toks: seq<Token>): Written
    requires cfg.bs > 0 && Feedable(cfg, e, i, toks)
    requires Shaped(cfg.bs, StoreOf(e)) && FreeListOk(e.pool) && InRange(StoreOf(e), e.running[i].Table())
  {
    Write(cfg.bs, StoreOf(e), e.running[i].Table(), e.running[i].computed, NewColumns(cfg, m, e, i, toks))
  }

  /** The pass took `more`, exactly the planned blocks, and copied nothing. */
  ghost predicate TookPlanned(cfg: Config, e: State, i: nat, toks: seq<Token>, store: Store, table: seq<nat>,
                              more: seq<nat>)
    requires cfg.bs > 0 && Feedable(cfg, e, i, toks)
  {
    var r, need := e.running[i], Need(cfg, e.running[i], e.running[i].computed + |toks|);
    && |store.pool.ref| == |e.pool.ref|
    && table == r.Table() + more && |more| == need
    && |store.pool.free| == |e.pool.free| - need
    && PrivateFrom(store.pool, table, r.Adopted())
    && (forall b :: b in more ==> b !in Held(e))
  }

  /** The pass wrote the request's own columns and touched nobody else's blocks. */
  ghost predicate WroteOwn(cfg: Config, m: Model, e: State, i: nat, toks: seq<Token>, store: Store, table: seq<nat>)
    requires cfg.bs > 0 && Feedable(cfg, e, i, toks)
  {
    var r, total := e.running[i], e.running[i].computed + |toks|;
    && Shaped(cfg.bs, store) && InRange(store, table)
    && Counts(store.pool, multiset(table) + Others(e, i))
    && Kept(StoreOf(e), store, Others(e, i))
    && total <= |table| * cfg.bs
    && Gather(cfg.bs, store, table, total) == Columns(m, r.AllTokens()[..total])
  }

  /** The facts about a pass the rest of the proof uses. */
  ghost predicate Passed(cfg: Config, m: Model, e: State, i: nat, toks: seq<Token>, p: Pass, more: seq<nat>)
    requires cfg.bs > 0 && Feedable(cfg, e, i, toks)
  {
    && TookPlanned(cfg, e, i, toks, p.store, p.table, more)
    && WroteOwn(cfg, m, e, i, toks, p.store, p.table)
    && p.token == NextToken(m, e.running[i].AllTokens()[..e.running[i].computed + |toks|])
  }

  lemma PassStarts(cfg: Config, e: State, i: nat)
    requires cfg.bs > 0 && MemoryOk(cfg, e) && i < |e.running|
    ensures Shaped(cfg.bs, StoreOf(e)) && FreeListOk(e.pool) && InRange(StoreOf(e), e.running[i].Table())
    ensures Counts(e.pool, Held(e)) && Counts(e.pool, multiset(e.running[i].Table()) + Others(e, i))
  {
    HeldAround(e, i);
    InQueue(e, e.running[i]);
    TablesInRange(cfg, e, e.running[i]);
    hide Shaped, FreeListOk, InRange, Counts, Held, Others, TreeOk;
  }

  lemma TakesPlanned(cfg: Config, m: Model, e: State, i: nat, toks: seq<Token>)
    requires cfg.bs > 0 && Feedable(cfg, e, i, toks) && |NewColumns(cfg, m, e, i, toks)| == |toks|
    requires Shaped(cfg.bs, StoreOf(e)) && FreeListOk(e.pool) && InRange(StoreOf(e), e.running[i].Table())
    requires Counts(e.pool, Held(e)) && PrivateFrom(e.pool, e.running[i].Table(), e.running[i].Adopted())
    ensures var w := PassWrite(cfg, m, e, i, toks);
      && w.Written?
      && TookPlanned(cfg, e, i, toks, w.store, w.table,
        NextBlocks(e.pool, Need(cfg, e.running[i], e.running[i].computed + |toks|)))
  {
    hide Shaped, FreeListOk, InRange, Counts, PrivateFrom, Held, NextBlocks, NewColumns, Write, Others;
    var r := e.running[i];
    var need := Need(cfg, r, r.computed + |toks|);
    WritePrivate(cfg.bs, StoreOf(e), r.Table(), r.computed, NewColumns(cfg, m, e, i, toks), r.Adopted(), Held(e));
    AllocateManyFreeList(e.pool, need);
    NextBlocksAreFree(e.pool, need, Held(e));
  }

  lemma WritesOwn(cfg: Config, m: Model, e: State, i: nat, toks: seq<Token>)
    requires cfg.bs > 0 && Feedable(cfg, e, i, toks) && ViewOk(cfg, m, e, e.running[i])
    requires Shaped(cfg.bs, StoreOf(e)) && FreeListOk(e.pool) && InRange(StoreOf(e), e.running[i].Table())
    requires Counts(e.pool, multiset(e.running[i].Table()) + Others(e, i))
    requires PassWrite(cfg, m, e, i, toks).Written?
    ensures var w := PassWrite(cfg, m, e, i, toks);
      WroteOwn(cfg, m, e, i, toks, w.store, w.table)
  {
    PassColumns(cfg, m, e, i, toks);
    hide Shaped, FreeListOk, InRange, Counts, Gather, Held, Kept, NewColumns, Write, Others, ViewOk, Need, Columns,
      Extend;
    var r := e.running[i];
    WriteIsolated(cfg.bs, StoreOf(e), r.Table(), r.computed, NewColumns(cfg, m, e, i, toks), Others(e, i));
  }

  lemma ForwardIs(cfg: Config, m: Model, e: State, i: nat, toks: seq<Token>)
    requires cfg.bs > 0 && Feedable(cfg, e, i, toks) && ViewOk(cfg, m, e, e.running[i])
    requires Shaped(cfg.bs, StoreOf(e)) && FreeListOk(e.pool) && InRange(StoreOf(e), e.running[i].Table())
    requires PassWrite(cfg, m, e, i, toks).Written?
    ensures var r, w := e.running[i], PassWrite(cfg, m, e, i, toks);
      Forward(cfg, m, e, r, r.computed, toks) ==
        Some(Pass(w.store, w.table, NextToken(m, r.AllTokens()[..r.computed + |toks|])))
  {
    assert i < |e.running|;
    hide *;
    var r, n := e.running[i], e.running[i].computed;
    FeedableIs(cfg, e, i, toks);
    PassColumns(cfg, m, e, i, toks);
    LastFed(m, r.AllTokens(), n, toks);
    PassWriteIs(cfg, m, e, i, toks);
    ReadsWritten(cfg.bs, m, StoreOf(e), r.Table(), n, toks);
    ForwardInfers(cfg, m, e, r, n, toks);
  }

  lemma ForwardInfers(cfg: Config, m: Model, e: State, r: Req, start: nat, toks: seq<Token>)
    requires CanFeed(cfg, e, r, toks)
    ensures CanInfer(cfg.bs, StoreOf(e), r.Table(), toks)
    ensures Forward(cfg, m, e, r, start, toks) == Infer(cfg.bs, m, StoreOf(e), r.Table(), start, toks)
  {
    hide Infer, Shaped, FreeListOk, InRange;
  }

  lemma FeedableIs(cfg: Config, e: State, i: nat, toks: seq<Token>)
    requires cfg.bs > 0 && Feedable(cfg, e, i, toks)
    requires Shaped(cfg.bs, StoreOf(e)) && FreeListOk(e.pool) && InRange(StoreOf(e), e.running[i].Table())
    ensures CanFeed(cfg, e, e.running[i], toks) && CanInfer(cfg.bs, StoreOf(e), e.running[i].Table(), toks)
    ensures e.running[i].computed <= |e.running[i].Table()| * cfg.bs
    ensures var r := e.running[i];
      r.computed + |toks| <= |r.AllTokens()| && toks == r.AllTokens()[r.computed..r.computed + |toks|]
  {
  }

  lemma PassWriteIs(cfg: Config, m: Model, e: State, i: nat, toks: seq<Token>)
    requires cfg.bs > 0 && Feedable(cfg, e, i, toks)
    requires Shaped(cfg.bs, StoreOf(e)) && FreeListOk(e.pool) && InRange(StoreOf(e), e.running[i].Table())
    ensures var r, n := e.running[i], e.running[i].computed;
      PassWrite(cfg, m, e, i, toks) ==
        Write(cfg.bs, StoreOf(e), r.Table(), n, Columns(m, r.AllTokens()[..n + |toks|])[n..])
  {
    hide Write, Columns, Shaped, FreeListOk, InRange;
  }

  lemma LastFed(m: Model, all: seq<Token>, n: nat, toks: seq<Token>)
    requires toks != [] && n + |toks| <= |all| && toks == all[n..n + |toks|]
    ensures var cols := Columns(m, all[..n + |toks|]);
      m.pick(cols[..|cols| - 1], toks[|toks| - 1]) == NextToken(m, all[..n + |toks|])
  {
    var fed := all[..n + |toks|];
    ColumnsPrefix(m, fed, |fed| - 1);
    assert toks[|toks| - 1] == fed[|fed| - 1];
  }

  /** The pass succeeds, takes exactly the planned blocks, copies nothing, and samples what plain decoding would. */
  lemma PassResult(cfg: Config, m: Model, e: State, i: nat, toks: seq<Token>) returns (p: Pass, more: seq<nat>)
    requires cfg.bs > 0 && Feedable(cfg, e, i, toks)
    requires MemoryOk(cfg, e) && PrivateOk(e, e.running[i]) && ViewOk(cfg, m, e, e.running[i])
    ensures Forward(cfg, m, e, e.running[i], e.running[i].computed, toks) == Some(p)
    ensures Passed(cfg, m, e, i, toks, p, more)
  {
    hide Shaped, FreeListOk, InRange, Counts, PrivateFrom, PrivateOk, MemoryOk, Held, NextBlocks, NewColumns,
      PassWrite, Others,
      TookPlanned, WroteOwn, Forward, ViewOk, Need, Gather, Columns, Queued;
    var r := e.running[i];
    PassStarts(cfg, e, i);
    RunningIsQueued(e, i);
    PrivateRefs(cfg, e, r);
    PassColumns(cfg, m, e, i, toks);
    TakesPlanned(cfg, m, e, i, toks);
    WritesOwn(cfg, m, e, i, toks);
    ForwardIs(cfg, m, e, i, toks);
    var w := PassWrite(cfg, m, e, i, toks);
    p := Pass(w.store, w.table, NextToken(m, r.AllTokens()[..r.computed + |toks|]));
    more := NextBlocks(e.pool, Need(cfg, r, r.computed + |toks|));
  }

  lemma RunningIsQueued(e: State, i: nat)
    requires i < |e.running|
    ensures e.running[i] in Queued(e)
  {
  }

  // ---- committing a pass

  /** e' is e after pass p of request i, whose new record is r'. */
  ghost predicate Committed(cfg: Config, m: Model, e: State, i: nat, toks: seq<Token>, p: Pass, more: seq<nat>,
                            e': State, r': Req) {
    && cfg.bs > 0 && Feedable(cfg, e, i, toks) && Passed(cfg, m, e, i, toks, p, more)
    && e' == Commit(e, i, p, r')
    && Fed(e.running[i], r', p.table, e.running[i].computed + |toks|)
    && e.running[i].Adopted() <= |e.running[i].Table()|
  }

  lemma CommittedQueue(e: State, i: nat, p: Pass, r': Req)
    requires i < |e.running|
    ensures var e' := Commit(e, i, p, r');
      && i < |Queued(e)| && Queued(e') == Queued(e)[i := r']
      && Held(e') == multiset(r'.Table()) + Others(e, i)
      && (forall q :: q in Queued(e') ==> q == r' || (q in Without(Queued(e), i) && q in Queued(e)))
      && r' in Queued(e')
  {
    hide Tables, NodeBlocks;
    var e' := Commit(e, i, p, r');
    assert Queued(e') == Queued(e)[i := r'];
    TablesUpdate(Queued(e), i, r');
    Regroup(multiset(r'.Table()), Tables(Without(Queued(e), i)), multiset(NodeBlocks(e.tree.nodes)));
    assert Queued(e')[i] == r';
  }

  lemma CommittedMemory(cfg: Config, m: Model, e: State, i: nat, toks: seq<Token>, p: Pass, more: seq<nat>, e': State,
                        r': Req)
    requires Committed(cfg, m, e, i, toks, p, more, e', r') && MemoryOk(cfg, e)
    ensures MemoryOk(cfg, e')
  {
    CommittedQueue(e, i, p, r');
    hide Gather, FreeListOk, Counts, TreeOk, PrivateFrom, Held, Kept, Need, Others, Queued, InRange;
    CountsFreeList(e'.pool, Held(e'));
  }

  lemma CommittedMine(cfg: Config, m: Model, e: State, i: nat, toks: seq<Token>, p: Pass, more: seq<nat>, e': State,
                      r': Req)
    requires Committed(cfg, m, e, i, toks, p, more, e', r') && MemoryOk(cfg, e) && AdoptedOk(cfg, e, e.running[i])
    ensures PrivateOk(e', r') && AdoptedOk(cfg, e', r') && ViewOk(cfg, m, e', r')
  {
    var r := e.running[i];
    CommittedMemory(cfg, m, e, i, toks, p, more, e', r');
    CommittedQueue(e, i, p, r');
    hide Gather, FreeListOk, Counts, TreeOk, PrivateFrom, Held, Kept, Need, Others, Queued, InRange, MemoryOk, Shaped,
      AdoptedOk, PrivateOk, ViewOk;
    assert r'.Table() == p.table;
    PrivateFromHeld(cfg, e', r');
    MyView(cfg, m, e', r, r');
    MyAdopted(cfg, e, e', r, r');
  }

  lemma PrivateFromHeld(cfg: Config, e: State, r: Req)
    requires MemoryOk(cfg, e) && r in Queued(e) && PrivateFrom(e.pool, r.Table(), r.Adopted())
    ensures PrivateOk(e, r)
  {
    hide TreeOk, Shaped, FreeListOk, Held;
  }

  lemma MyView(cfg: Config, m: Model, e: State, r: Req, r': Req)
    requires Shaped(cfg.bs, StoreOf(e)) && InRange(StoreOf(e), r'.Table())
    requires r'.prompt == r.prompt && r.output <= r'.output && r'.computed <= |r.AllTokens()|
    requires r'.computed <= |r'.Table()| * cfg.bs
    requires Gather(cfg.bs, StoreOf(e), r'.Table(), r'.computed) == Columns(m, r.AllTokens()[..r'.computed])
    ensures ViewOk(cfg, m, e, r')
  {
    hide Gather, Shaped, InRange;
    assert r'.AllTokens()[..r'.computed] == r.AllTokens()[..r'.computed];
  }

  lemma MyAdopted(cfg: Config, e: State, e': State, r: Req, r': Req)
    requires AdoptedOk(cfg, e, r) && e'.tree == e.tree && r'.prompt == r.prompt
    requires r.Table() <= r'.Table() && r'.Adopted() == r.Adopted() <= |r.Table()|
    ensures AdoptedOk(cfg, e', r')
  {
  }

  /** Blocks taken in the pass were nobody's, so nobody's private block becomes shared. */
  lemma CommittedPrivate(cfg: Config, m: Model, e: State, i: nat, toks: seq<Token>, p: Pass, more: seq<nat>,
                         e': State, r': Req, q: Req)
    requires Committed(cfg, m, e, i, toks, p, more, e', r')
    requires q in Queued(e) && q in Queued(e') && PrivateOk(e, q)
    ensures PrivateOk(e', q)
  {
    CommittedQueue(e, i, p, r');
    HeldAround(e, i);
    var r := e.running[i];
    hide Gather, FreeListOk, Counts, PrivateFrom, Held, Kept, Need, Others, Queued, InRange, Shaped, PrivateOk;
    assert multiset(p.table) == multiset(r.Table()) + multiset(more);
    forall k | q.Adopted() <= k < |q.Table()|
      ensures Held(e')[q.Table()[k]] <= Held(e)[q.Table()[k]]
    {
      HeldMember(e, q, k);
      assert q.Table()[k] !in more;
    }
    PrivateFrame(e, e', q);
  }

  lemma CommittedView(cfg: Config, m: Model, e: State, i: nat, toks: seq<Token>, p: Pass, more: seq<nat>, e': State,
                      r': Req, q: Req)
    requires Committed(cfg, m, e, i, toks, p, more, e', r')
    requires i < |Queued(e)| && q in Without(Queued(e), i) && ViewOk(cfg, m, e, q) && AdoptedOk(cfg, e, q)
    ensures ViewOk(cfg, m, e', q) && AdoptedOk(cfg, e', q)
  {
    OtherBlocks(e, i);
    hide Gather, FreeListOk, Counts, PrivateFrom, Held, Need, Others, Queued, InRange, Shaped, ViewOk;
    assert |e'.mem| == |e.mem| by { SameSize(cfg, m, e, q, p.store); }
    ViewFrame(cfg, m, e, e', q);
  }

  lemma SameSize(cfg: Config, m: Model, e: State, q: Req, st: Store)
    requires ViewOk(cfg, m, e, q) && Shaped(cfg.bs, st) && |st.pool.ref| == |e.pool.ref|
    ensures |st.mem| == |e.mem|
  {
  }

  lemma CommittedNodes(cfg: Config, m: Model, e: State, i: nat, toks: seq<Token>, p: Pass, more: seq<nat>, e': State,
                       r': Req)
    requires Committed(cfg, m, e, i, toks, p, more, e', r') && NodesOk(cfg, m, e)
    ensures NodesOk(cfg, m, e')
  {
    OtherBlocks(e, i);
    hide Gather, FreeListOk, Counts, PrivateFrom, Held, Need, Others, Queued, InRange, Shaped;
    forall n | n in e'.tree.nodes
      ensures NodeOk(cfg, m, e', n)
    {
      assert NodeOk(cfg, m, e, n);
      assert e.tree.nodes[n].block in NodeBlocks(e.tree.nodes);
    }
  }

  lemma CommittedOwnership(cfg: Config, m: Model, e: State, i: nat, toks: seq<Token>, p: Pass, more: seq<nat>,
                           e': State, r': Req)
    requires Committed(cfg, m, e, i, toks, p, more, e', r') && MemoryOk(cfg, e)
    requires OwnershipOk(cfg, e) && ViewsOk(cfg, m, e)
    ensures OwnershipOk(cfg, e') && ViewsOk(cfg, m, e')
  {
    assert cfg.bs > 0 && i < |e.running| && e' == Commit(e, i, p, r');
    CommittedQueue(e, i, p, r');
    InQueue(e, e.running[i]);
    CommittedMine(cfg, m, e, i, toks, p, more, e', r');
    hide Committed, Queued, Held, PrivateOk, AdoptedOk, ViewOk, Others, MemoryOk;
    forall q | q in Queued(e')
      ensures PrivateOk(e', q) && AdoptedOk(cfg, e', q) && ViewOk(cfg, m, e', q)
    {
      if q != r' {
        CommittedPrivate(cfg, m, e, i, toks, p, more, e', r', q);
        CommittedView(cfg, m, e, i, toks, p, more, e', r', q);
      }
    }
  }

  lemma CommittedIds(e: State, i: nat, p: Pass, r': Req)
    requires i < |e.running| && IdsOk(e) && r'.id == e.running[i].id
    ensures IdsOk(Commit(e, i, p, r'))
  {
    var e' := Commit(e, i, p, r');
    var q, q' := Queued(e), Queued(e');
    assert q' == q[i := r'];
    forall x | x in q'
      ensures x.id < e'.nextId
    {
      if x == r' {
        assert q[i] in q;
      }
    }
  }
}
