/** A prompt fed in chunks: any split of it leaves what the whole prompt fed at once leaves. */
module ChunkedPrefill {
  import opened Numbers
  import opened Options
  import opened Blocks
  import opened Paging
  import opened Decoding
  import opened Serving
  import opened PagedForward
  import opened PlainForward
  import opened PrivateWrites
  import opened Transformer

  function Flat(chunks: seq<seq<Token>>): seq<Token> {
    if chunks == [] then [] else Flat(chunks[..|chunks| - 1]) + chunks[|chunks| - 1]
  }

  lemma FlatMore(chunks: seq<seq<Token>>, k: nat)
    requires k < |chunks|
    ensures Flat(chunks[..k + 1]) == Flat(chunks[..k]) + chunks[k]
  {
    assert chunks[..k + 1][..k] == chunks[..k];
  }

  lemma {:induction false} FlatPrefix(chunks: seq<seq<Token>>, k: nat)
    requires k <= |chunks|
    ensures |Flat(chunks[..k])| <= |Flat(chunks)|
    decreases |chunks| - k
  {
    if k == |chunks| {
      assert chunks[..k] == chunks;
    } else {
      FlatMore(chunks, k);
      FlatPrefix(chunks, k + 1);
    }
  }

  // ---- the pool under two writes

  lemma AllocateStep(p: Pool, n: nat)
    requires FreeListOk(p) && 0 < n <= |p.free|
    ensures FreeListOk(Allocate(p)) && |Allocate(p).free| == |p.free| - 1
    ensures AllocateMany(p, n) == AllocateMany(Allocate(p), n - 1)
  {
    AllocateFreeList(p);
  }

  lemma {:induction false} AllocateTwice(p: Pool, a: nat, b: nat)
    requires FreeListOk(p) && a + b <= |p.free|
    ensures FreeListOk(AllocateMany(p, a)) && AllocateMany(p, a).free == p.free[..|p.free| - a]
    ensures AllocateMany(AllocateMany(p, a), b) == AllocateMany(p, a + b)
    decreases a
  {
    AllocateManyFreeList(p, a);
    if a > 0 {
      hide FreeListOk, Allocate, AllocateMany;
      AllocateStep(p, a);
      AllocateStep(p, a + b);
      AllocateTwice(Allocate(p), a - 1, b);
    }
  }

  lemma NextTwice(p: Pool, a: nat, b: nat)
    requires FreeListOk(p) && a + b <= |p.free|
    ensures b <= |AllocateMany(p, a).free|
    ensures NextBlocks(p, a) + NextBlocks(AllocateMany(p, a), b) == NextBlocks(p, a + b)
  {
    AllocateTwice(p, a, b);
    hide AllocateMany, FreeListOk;
  }

  lemma NeedTwice(bs: nat, table: seq<nat>, n1: nat, n2: nat, table1: seq<nat>)
    requires bs > 0 && n1 <= n2 && |table1| == |table| + BlocksNeeded(bs, table, n1)
    ensures BlocksNeeded(bs, table, n1) + BlocksNeeded(bs, table1, n2) == BlocksNeeded(bs, table, n2)
  {
    CeilDivMono(n1, n2, bs);
    hide CeilDiv;
  }

  /** Growing a table twice is growing it once. */
  lemma GrowTwice(bs: nat, p: Pool, table: seq<nat>, n1: nat, n2: nat)
    requires bs > 0 && n1 <= n2 && FreeListOk(p) && BlocksNeeded(bs, table, n2) <= |p.free|
    ensures BlocksNeeded(bs, table, n1) <= |p.free|
    ensures var q, table1 := AllocateMany(p, BlocksNeeded(bs, table, n1)), GrownTable(bs, p, table, n1);
      && FreeListOk(q) && BlocksNeeded(bs, table1, n2) <= |q.free|
      && AllocateMany(q, BlocksNeeded(bs, table1, n2)) == AllocateMany(p, BlocksNeeded(bs, table, n2))
      && GrownTable(bs, q, table1, n2) == GrownTable(bs, p, table, n2)
      && GrownTable(bs, p, table, n2) == table1 + NextBlocks(q, BlocksNeeded(bs, table1, n2))
  {
    NeedLess(bs, table, n1, n2);
    var k1, table1 := BlocksNeeded(bs, table, n1), GrownTable(bs, p, table, n1);
    NeedTwice(bs, table, n1, n2, table1);
    var k2 := BlocksNeeded(bs, table1, n2);
    hide AllocateMany, NextBlocks, FreeListOk, BlocksNeeded;
    AllocateTwice(p, k1, k2);
    NextTwice(p, k1, k2);
    assert table + NextBlocks(p, k1 + k2) == table + NextBlocks(p, k1) + NextBlocks(AllocateMany(p, k1), k2);
  }

  lemma NeedLess(bs: nat, table: seq<nat>, n1: nat, n2: nat)
    requires bs > 0 && n1 <= n2
    ensures BlocksNeeded(bs, table, n1) <= BlocksNeeded(bs, table, n2)
  {
    CeilDivMono(n1, n2, bs);
    hide CeilDiv;
  }

  /** A sequence with room for all of it has room for its first part, and the rest stays free. */
  lemma ExclusiveParts(bs: nat, st: Store, table: seq<nat>, start: nat, n1: nat, n2: nat, from: nat, st1: Store,
                       table1: seq<nat>)
    requires FreeListOk(st.pool) && start <= n1 <= n2 && Exclusive(bs, st, table, start, n2, from)
    ensures Exclusive(bs, st, table, start, n1, from)
    ensures
      st1.pool == AllocateMany(st.pool, BlocksNeeded(bs, table, n1)) && table1 == GrownTable(bs, st.pool, table, n1) ==>
        PrivateFrom(st1.pool, table1, from) ==> Exclusive(bs, st1, table1, n1, n2, from)
  {
    GrowTwice(bs, st.pool, table, n1, n2);
    hide BlocksNeeded, AllocateMany, GrownTable, FreeListOk, PrivateFrom;
  }

  /** A write after a write that ends where it begins is one write of both. */
  lemma WriteTwo(bs: nat, st: Store, table: seq<nat>, start: nat, a: seq<Column>, b: seq<Column>, from: nat,
                 held: multiset<nat>, st1: Store, table1: seq<nat>, held1: multiset<nat>, st2: Store, table2: seq<nat>)
    requires a != [] && b != [] && Counts(st.pool, held) && Counts(st1.pool, held1)
    requires Wrote(bs, st, table, start, a, st1, table1) && Wrote(bs, st1, table1, start + |a|, b, st2, table2)
    requires Exclusive(bs, st, table, start, start + |a| + |b|, from)
    ensures Wrote(bs, st, table, start, a + b, st2, table2)
    ensures Exclusive(bs, st1, table1, start + |a|, start + |a| + |b|, from)
  {
    var n1, n2 := start + |a|, start + |a| + |b|;
    assert bs > 0 && FreeListOk(st.pool);
    hide Write, Counts, FreeListOk, Shaped, InRange, PrivateFrom, PutAll, Fits, AllocateMany, NextBlocks, Exclusive,
      GrownTable, BlocksNeeded;
    ExclusiveParts(bs, st, table, start, n1, n2, from, st1, table1);
    WritePuts(bs, st, table, start, a, from, held);
    WritePuts(bs, st, table, start, a + b, from, held);
    WritePuts(bs, st1, table1, n1, b, from, held1);
    ExclusiveFits(bs, st, table, start, n2, from);
    GrowTwice(bs, st.pool, table, n1, n2);
    PutAllSplit(bs, st.mem, table2, start, a, b);
    PutAllGrown(bs, st.mem, table1, NextBlocks(st1.pool, BlocksNeeded(bs, table1, n2)), start, a);
  }

  lemma ExclusiveRest(bs: nat, st: Store, table: seq<nat>, start: nat, a: seq<Column>, n: nat, from: nat,
                      held: multiset<nat>, st1: Store, table1: seq<nat>)
    requires a != [] && start + |a| <= n && Counts(st.pool, held) && Wrote(bs, st, table, start, a, st1, table1)
    requires Exclusive(bs, st, table, start, n, from)
    ensures Exclusive(bs, st1, table1, start + |a|, n, from)
  {
    assert bs > 0 && FreeListOk(st.pool);
    hide Write, Counts, FreeListOk, Shaped, InRange, PrivateFrom, PutAll, Fits, AllocateMany, NextBlocks, Exclusive,
      GrownTable, BlocksNeeded;
    ExclusiveParts(bs, st, table, start, start + |a|, n, from, st1, table1);
    WritePuts(bs, st, table, start, a, from, held);
  }

  // ---- the run over the chunks

  /** The sequence after the tokens `fed`: its view is theirs, nobody else's blocks have changed. */
  ghost predicate Fed<X>(bs: nat, net: Net<X>, st0: Store, st: Store, table: seq<nat>, view: seq<Column>,
                         fed: seq<Token>, others: multiset<nat>) {
    && |Cols(net, view, fed)| == |view| + |fed|
    && Progressed(bs, net, st, table, Cols(net, view, fed), [], 0)
    && FreeListOk(st.pool) && Counts(st.pool, multiset(table) + others) && (fed != [] ==> Kept(st0, st, others))
    && (fed == [] ==> st == st0)
  }

  lemma FedNothing<X>(bs: nat, net: Net<X>, st: Store, table: seq<nat>, view: seq<Column>, others: multiset<nat>)
    requires Progressed(bs, net, st, table, view, [], 0) && FreeListOk(st.pool)
    requires Counts(st.pool, multiset(table) + others)
    ensures Fed(bs, net, st, st, table, view, [], others)
  {
    hide Counts, FreeListOk, Progressed, TokenColumn;
    assert Cols(net, view, []) == view;
  }

  lemma AnyTokens<X>(bs: nat, net: Net<X>, st: Store, table: seq<nat>, view: seq<Column>, toks: seq<Token>,
                     more: seq<Token>)
    requires Progressed(bs, net, st, table, view, toks, 0)
    ensures Progressed(bs, net, st, table, view, more, 0)
  {
    hide Cols, Gather, Shaped, InRange, StoreLayered;
  }

  /** One chunk more. */
  lemma FedMore<X>(bs: nat, net: Net<X>, st0: Store, st: Store, table: seq<nat>, view: seq<Column>, fed: seq<Token>,
                   chunk: seq<Token>, others: multiset<nat>, st': Store, table': seq<nat>, tok: Token)
    requires Layered(view, net.layers) && Fed(bs, net, st0, st, table, view, fed, others)
    requires Ran(bs, net, st, st', table', Cols(net, view, fed), chunk, others, tok)
    ensures Cols(net, Cols(net, view, fed), chunk) == Cols(net, view, fed + chunk)
    ensures Fed(bs, net, st0, st', table', view, fed + chunk, others)
    ensures Ran(bs, net, st0, st', table', view, fed + chunk, others, tok)
  {
    var all := Cols(net, view, fed + chunk);
    ColsSplit(net, view, fed, chunk);
    ColsAt(net, view, fed + chunk, 0);
    assert (fed + chunk)[|fed + chunk| - 1] == chunk[|chunk| - 1];
    hide Cols, Gather, Counts, FreeListOk, Shaped, InRange, StoreLayered, AsModel, Kept, FirstLayers;
    if fed != [] {
      KeptTrans(st0, st, st', others);
    }
  }

  /** The tokens before position |view|, and the columns they have. */
  lemma ColsParts<X>(net: Net<X>, view: seq<Column>, fed: seq<Token>, chunk: seq<Token>)
    requires Layered(view, net.layers)
    ensures var a, b := Cols(net, view, fed), Cols(net, Cols(net, view, fed), chunk);
      && b == Cols(net, view, fed + chunk) && |a| == |view| + |fed| && |b| == |a| + |chunk|
      && a[|view|..] + b[|a|..] == b[|view|..]
  {
    var a, b := Cols(net, view, fed), Cols(net, Cols(net, view, fed), chunk);
    ColsSplit(net, view, fed, chunk);
    ColsAt(net, view, fed, 0);
    ColsAt(net, a, chunk, 0);
    hide Cols;
    assert b[..|a|] == a;
    assert a[|view|..] + b[|a|..] == b[|view|..];
  }

  lemma FedParts<X>(bs: nat, net: Net<X>, st0: Store, st: Store, table: seq<nat>, view: seq<Column>, fed: seq<Token>,
                    others: multiset<nat>)
    requires Fed(bs, net, st0, st, table, view, fed, others)
    ensures |Cols(net, view, fed)| == |view| + |fed| && Progressed(bs, net, st, table, Cols(net, view, fed), [], 0)
    ensures FreeListOk(st.pool) && Counts(st.pool, multiset(table) + others)
  {
    hide Counts, FreeListOk, Progressed, Cols, Kept;
  }

  /** What has been written so far is one write of all columns so far. */
  ghost predicate WroteSoFar<X>(bs: nat, net: Net<X>, st0: Store, table0: seq<nat>, st: Store, table: seq<nat>,
                                view: seq<Column>, fed: seq<Token>) {
    && |Cols(net, view, fed)| == |view| + |fed|
    && if fed == [] then st == st0 && table == table0
       else Wrote(bs, st0, table0, |view|, Cols(net, view, fed)[|view|..], st, table)
  }

  lemma WroteMore<X>(bs: nat, net: Net<X>, st0: Store, table0: seq<nat>, st: Store, table: seq<nat>, view: seq<Column>,
                     fed: seq<Token>, chunk: seq<Token>, st': Store, table': seq<nat>, from: nat, n: nat,
                     held0: multiset<nat>, held: multiset<nat>)
    requires Layered(view, net.layers) && chunk != [] && |view| + |fed| + |chunk| <= n
    requires WroteSoFar(bs, net, st0, table0, st, table, view, fed) && Counts(st0.pool, held0) && Counts(st.pool, held)
    requires Exclusive(bs, st0, table0, |view|, n, from) && FreeListOk(st0.pool)
    requires Exclusive(bs, st, table, |view| + |fed|, n, from)
    requires |Cols(net, Cols(net, view, fed), chunk)| == |view| + |fed| + |chunk|
    requires Wrote(bs, st, table, |view| + |fed|, Cols(net, Cols(net, view, fed), chunk)[|view| + |fed|..], st', table')
    ensures WroteSoFar(bs, net, st0, table0, st', table', view, fed + chunk)
    ensures Exclusive(bs, st', table', |view| + |fed + chunk|, n, from)
  {
    ColsParts(net, view, fed, chunk);
    assert fed == [] ==> fed + chunk == chunk;
    assert |Cols(net, view, [])| == |view|;
    assert fed == [] ==> st == st0 && table == table0;
    assert fed != [] ==> Wrote(bs, st0, table0, |view|, Cols(net, view, fed)[|view|..], st, table);
    hide Cols, Wrote, Exclusive, Counts, FreeListOk, Layered;
    var b := Cols(net, Cols(net, view, fed), chunk)[|view| + |fed|..];
    ExclusiveRest(bs, st, table, |view| + |fed|, b, n, from, held, st', table');
    if fed != [] {
      var a := Cols(net, view, fed)[|view|..];
      ExclusiveParts(bs, st0, table0, |view|, |view| + |a| + |b|, n, from, st0, table0);
      WriteTwo(bs, st0, table0, |view|, a, b, from, held0, st, table, held, st', table');
    }
  }

  /** The same pass, seen as one. */
  lemma ChunksAreOnePass<X>(bs: nat, net: Net<X>, st0: Store, table0: seq<nat>, view: seq<Column>, fed: seq<Token>,
                            others: multiset<nat>, st: Store, table: seq<nat>, tok: Token)
    requires Progressed(bs, net, st0, table0, view, [], 0) && FreeListOk(st0.pool)
    requires Counts(st0.pool, multiset(table0) + others)
    requires fed != [] && WroteSoFar(bs, net, st0, table0, st, table, view, fed)
    requires Ran(bs, net, st0, st, table, view, fed, others, tok)
    ensures Infer(bs, AsModel(net), st0, table0, |view|, fed) == Some(Pass(st, table, tok))
  {
    hide Cols, Gather, Counts, FreeListOk, Shaped, InRange, StoreLayered, Ran, Wrote, Infer, AsModel;
    PassIsInfer(bs, net, st0, table0, view, fed, others, Cols(net, view, fed)[|view|..], st, table, tok);
  }

  /** Where the run over the chunks is when the tokens `fed` are in. */
  ghost predicate Chunked<X>(bs: nat, net: Net<X>, st0: Store, table0: seq<nat>, st: Store, table: seq<nat>,
                             view: seq<Column>, fed: seq<Token>, others: multiset<nat>, from: nat, n: nat, fits: bool,
                             tok: Token) {
    && Fed(bs, net, st0, st, table, view, fed, others)
    && (fed != [] ==> Ran(bs, net, st0, st, table, view, fed, others, tok))
    && (fits ==>
         && Exclusive(bs, st0, table0, |view|, n, from) && Exclusive(bs, st, table, |view| + |fed|, n, from)
         && WroteSoFar(bs, net, st0, table0, st, table, view, fed))
  }

  lemma ChunkReady<X>(bs: nat, net: Net<X>, st0: Store, table0: seq<nat>, st: Store, table: seq<nat>,
                      view: seq<Column>, fed: seq<Token>, others: multiset<nat>, from: nat, n: nat, fits: bool,
                      tok: Token, chunk: seq<Token>)
    requires Chunked(bs, net, st0, table0, st, table, view, fed, others, from, n, fits, tok)
    requires |view| + |fed| + |chunk| <= n
    ensures |Cols(net, view, fed)| == |view| + |fed| && Progressed(bs, net, st, table, Cols(net, view, fed), chunk, 0)
    ensures FreeListOk(st.pool) && Counts(st.pool, multiset(table) + others)
    ensures fits ==> Exclusive(bs, st, table, |view| + |fed|, |view| + |fed| + |chunk|, from)
  {
    FedParts(bs, net, st0, st, table, view, fed, others);
    AnyTokens(bs, net, st, table, Cols(net, view, fed), [], chunk);
    hide Fed, Ran, Exclusive, WroteSoFar, Cols, Counts, FreeListOk, Progressed;
    if fits {
      ExclusiveParts(bs, st, table, |view| + |fed|, |view| + |fed| + |chunk|, n, from, st, table);
    }
  }

  lemma ChunkDone<X>(bs: nat, net: Net<X>, st0: Store, table0: seq<nat>, st: Store, table: seq<nat>,
                     view: seq<Column>, fed: seq<Token>, others: multiset<nat>, from: nat, n: nat, fits: bool,
                     tok: Token, chunk: seq<Token>, st': Store, table': seq<nat>, tok': Token)
    requires Chunked(bs, net, st0, table0, st, table, view, fed, others, from, n, fits, tok)
    requires Layered(view, net.layers) && chunk != [] && |view| + |fed| + |chunk| <= n && FreeListOk(st0.pool)
    requires Counts(st0.pool, multiset(table0) + others)
    requires Ran(bs, net, st, st', table', Cols(net, view, fed), chunk, others, tok')
    requires fits ==>
      && |Cols(net, Cols(net, view, fed), chunk)| == |view| + |fed| + |chunk|
      && Wrote(bs, st, table, |view| + |fed|, Cols(net, Cols(net, view, fed), chunk)[|view| + |fed|..], st', table')
    ensures Chunked(bs, net, st0, table0, st', table', view, fed + chunk, others, from, n, fits, tok')
  {
    FedParts(bs, net, st0, st, table, view, fed, others);
    hide Fed, Ran, Exclusive, WroteSoFar, Cols, Counts, FreeListOk, Progressed, Wrote, Layered;
    FedMore(bs, net, st0, st, table, view, fed, chunk, others, st', table', tok');
    if fits {
      WroteMore(bs, net, st0, table0, st, table, view, fed, chunk, st', table', from, n, multiset(table0) +
        others, multiset(table) + others);
    }
  }

  lemma ChunksStart<X>(bs: nat, net: Net<X>, st: Store, table: seq<nat>, view: seq<Column>, others: multiset<nat>,
                       from: nat, n: nat, fits: bool, tok: Token)
    requires Progressed(bs, net, st, table, view, [], 0) && FreeListOk(st.pool)
    requires Counts(st.pool, multiset(table) + others)
    requires fits ==> Exclusive(bs, st, table, |view|, n, from)
    ensures Chunked(bs, net, st, table, st, table, view, [], others, from, n, fits, tok)
  {
    FedNothing(bs, net, st, table, view, others);
    WroteNothing(bs, net, st, table, view);
    hide Fed, Ran, Exclusive, WroteSoFar, Progressed, Counts, FreeListOk;
  }

  lemma ChunksEnd<X>(bs: nat, net: Net<X>, st0: Store, table0: seq<nat>, st: Store, table: seq<nat>, view: seq<Column>,
                     fed: seq<Token>, others: multiset<nat>, from: nat, n: nat, fits: bool, tok: Token)
    requires Chunked(bs, net, st0, table0, st, table, view, fed, others, from, n, fits, tok) && fed != []
    requires Progressed(bs, net, st0, table0, view, [], 0) && FreeListOk(st0.pool)
    requires Counts(st0.pool, multiset(table0) + others) && Layered(view, net.layers)
    ensures Ran(bs, net, st0, st, table, view, fed, others, tok) && LeftPlain(bs, net, st, table, view, fed, tok)
    ensures fits ==> Infer(bs, AsModel(net), st0, table0, |view|, fed) == Some(Pass(st, table, tok))
  {
    hide LeftPlain, Fed, Ran, Exclusive, WroteSoFar, Progressed, Counts, FreeListOk, Infer;
    if fits {
      ChunksAreOnePass(bs, net, st0, table0, view, fed, others, st, table, tok);
    }
    RanPlain(bs, net, st0, st, table, view, fed, others, tok);
  }

  method NextChunk<X>(bs: nat, net: Net<X>, st: Store, table: seq<nat>, pos: nat, chunk: seq<Token>, ghost st0: Store,
                      ghost table0: seq<nat>, ghost view: seq<Column>, ghost fed: seq<Token>,
                      ghost others: multiset<nat>, ghost from: nat, ghost n: nat, ghost fits: bool, ghost tok: Token)
    returns (r: Option<(Store, seq<nat>, Token)>)
    requires bs > 0 && net.layers > 0 && Layered(view, net.layers) && pos == |view| + |fed| && pos + |chunk| <= n
    requires FreeListOk(st0.pool) && Counts(st0.pool, multiset(table0) + others)
    requires Chunked(bs, net, st0, table0, st, table, view, fed, others, from, n, fits, tok)
    ensures r.Some? ==> chunk != []
    ensures r.Some? ==>
      Chunked(bs, net, st0, table0, r.value.0, r.value.1, view, fed + chunk, others, from, n, fits, r.value.2)
    ensures fits && chunk != [] ==> r.Some?
  {
    hide *;
    ChunkReady(bs, net, st0, table0, st, table, view, fed, others, from, n, fits, tok, chunk);
    r := ForwardPrefill(bs, net, st, table, pos, chunk, Cols(net, view, fed), others, from);
    if r.Some? {
      ChunkDone(bs, net, st0, table0, st, table, view, fed, others, from, n, fits, tok, chunk, r.value.0, r.value.1,
        r.value.2);
    }
  }

  /**
   A prompt fed in any chunks. Every layer's cells and the final token are those of the
   whole prompt; with exclusive blocks enough no chunk fails, and the chunks together
   leave the very store, table and token of the one-shot pass.
   */
  method PrefillChunks<X>(bs: nat, net: Net<X>, st0: Store, table0: seq<nat>, start: nat, chunks: seq<seq<Token>>,
                          ghost view: seq<Column>, ghost others: multiset<nat>, ghost from: nat)
    returns (r: Option<(Store, seq<nat>, Token)>)
    requires bs > 0 && net.layers > 0 && start == |view| && chunks != []
    requires Progressed(bs, net, st0, table0, view, [], 0)
    requires FreeListOk(st0.pool) && Counts(st0.pool, multiset(table0) + others)
    ensures [] in chunks ==> r.None?
    ensures r.Some? ==> Ran(bs, net, st0, r.value.0, r.value.1, view, Flat(chunks), others, r.value.2)
    ensures r.Some? ==> LeftPlain(bs, net, r.value.0, r.value.1, view, Flat(chunks), r.value.2)
    ensures [] !in chunks && Exclusive(bs, st0, table0, start, start + |Flat(chunks)|, from) ==>
      && r.Some?
      && Infer(bs, AsModel(net), st0, table0, start, Flat(chunks)) == Some(Pass(r.value.0, r.value.1, r.value.2))
  {
    ghost var n, fits := start + |Flat(chunks)|, Exclusive(bs, st0, table0, start, start + |Flat(chunks)|, from);
    assert Layered(view, net.layers);
    NothingFlat(chunks);
    hide *;
    var st, table, tok, pos, k := st0, table0, 0, start, 0;
    ghost var fed: seq<Token> := [];
    ChunksStart(bs, net, st0, table0, view, others, from, n, fits, tok);
    while k < |chunks|
      invariant k <= |chunks| && fed == Flat(chunks[..k]) && pos == |view| + |fed| && NoneEmpty(chunks, k)
      invariant (k > 0 ==> fed != [])
      invariant Chunked(bs, net, st0, table0, st, table, view, fed, others, from, n, fits, tok)
    {
      var chunk := chunks[k];
      FlatUpTo(chunks, k);
      var next := NextChunk(bs, net, st, table, pos, chunk, st0, table0, view, fed, others, from, n, fits, tok);
      if next.None? {
        return None;
      }
      st, table, tok := next.value.0, next.value.1, next.value.2;
      pos, fed, k := pos + |chunk|, fed + chunk, k + 1;
    }
    AllFlat(chunks);
    ChunksEnd(bs, net, st0, table0, st, table, view, fed, others, from, n, fits, tok);
    r := Some((st, table, tok));
  }

  ghost predicate NoneEmpty(chunks: seq<seq<Token>>, k: nat)
    requires k <= |chunks|
  {
    [] !in chunks[..k]
  }

  lemma NothingFlat(chunks: seq<seq<Token>>)
    ensures Flat(chunks[..0]) == [] && NoneEmpty(chunks, 0)
  {
  }

  lemma FlatUpTo(chunks: seq<seq<Token>>, k: nat)
    requires k < |chunks|
    ensures Flat(chunks[..k + 1]) == Flat(chunks[..k]) + chunks[k]
    ensures |Flat(chunks[..k])| + |chunks[k]| <= |Flat(chunks)|
    ensures NoneEmpty(chunks, k) && chunks[k] != [] ==> NoneEmpty(chunks, k + 1)
    ensures chunks[k] == [] ==> [] in chunks
  {
    FlatMore(chunks, k);
    FlatPrefix(chunks, k + 1);
    hide Flat;
  }

  lemma AllFlat(chunks: seq<seq<Token>>)
    ensures chunks[..|chunks|] == chunks
    ensures NoneEmpty(chunks, |chunks|) ==> [] !in chunks
  {
  }

  lemma WroteNothing<X>(bs: nat, net: Net<X>, st: Store, table: seq<nat>, view: seq<Column>)
    ensures WroteSoFar(bs, net, st, table, st, table, view, [])
  {
    hide TokenColumn, Wrote;
    assert Cols(net, view, []) == view;
  }
}
