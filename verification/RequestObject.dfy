/** A request as an object that the engine updates in place. */
module RequestObject {
  import opened Options
  import opened Blocks
  import opened Allocation
  import opened Decoding
  import opened SequenceViews
  import opened Requests

  /** A sequence view as a value; the adopted prefix is whole blocks. */
  function ViewOf(bs: nat, table: seq<nat>, length: nat, cachedPrefix: nat): SeqKV {
    SeqKV(table, length, if bs == 0 then 0 else cachedPrefix / bs)
  }

  class Request {
    const id: nat
    const prompt: seq<Token>
    const maxTokens: nat
    const ignoreEos: bool
    var status: Status
    var output: seq<Token>
    var kv: SequenceKV?
    var computed: nat

    /** The request's record. */
    function Value(): Req
      reads this, kv
    {
      var view := if kv == null then None
        else Some(ViewOf(kv.cache.blockSize, kv.blockTable, kv.length, kv.numCachedPrefix));
      Req(id, prompt, maxTokens, ignoreEos, status, output, view, computed)
    }

    constructor (id: nat, prompt: seq<Token>, maxTokens: nat, ignoreEos: bool)
      ensures Value() == Req(id, prompt, maxTokens, ignoreEos, Waiting, [], None, 0) && kv == null && status == Waiting
      ensures this.id == id && this.prompt == prompt && this.maxTokens == maxTokens && this.ignoreEos == ignoreEos
    {
      this.id, this.prompt, this.maxTokens, this.ignoreEos := id, prompt, maxTokens, ignoreEos;
      status, output, kv, computed := Waiting, [], null, 0;
    }

    method AppendToken(t: Token)
      modifies this`output
      ensures Value() == old(Value()).(output := old(output) + [t])
    {
      output := output + [t];
    }

    method SetComputed(n: nat)
      modifies this`computed
      ensures Value() == old(Value()).(computed := n) && computed == n
    {
      computed := n;
    }

    method SetStatus(s: Status)
      modifies this`status
      ensures Value() == old(Value()).(status := s) && status == s
    {
      status := s;
    }

    method Finish(aborted: bool)
      modifies this`status
      ensures Value() == old(Value()).(status := if aborted then Aborted else Finished) && IsFinished()
      ensures status == if aborted then Aborted else Finished
    {
      status := if aborted then Aborted else Finished;
    }

    predicate IsFinished()
      reads this
    {
      status == Finished || status == Aborted
    }

    /** Give the KV back and forget it; false is a block already free. */
    method ReleaseKv() returns (ok: bool)
      requires kv != null ==> kv.cache.allocator.Valid()
      modifies this`kv, kv, if kv == null then {} else {kv.cache.allocator}
      ensures ok <==> old(kv) == null || AllLive(old(kv.cache.allocator.Value()), old(kv.blockTable))
      ensures ok ==> kv == null && Value() == old(Value()).(kv := None)
      ensures ok && old(kv) != null ==>
        && old(kv).cache.allocator.Valid()
        && old(kv).cache.allocator.Value() == FreeMany(old(kv.cache.allocator.Value()), old(kv.blockTable))
        && old(kv).cache.allocator.cowCopies == old(kv.cache.allocator.cowCopies)
    {
      ok := true;
      if kv != null {
        ok := kv.Release();
        if !ok {
          return;
        }
        kv := null;
      }
    }

    /** Preemption by recomputation: drop the KV, keep the generated tokens. */
    method ResetForRecompute() returns (ok: bool)
      requires kv != null ==> kv.cache.allocator.Valid()
      modifies this, kv, if kv == null then {} else {kv.cache.allocator}
      ensures ok <==> old(kv) == null || AllLive(old(kv.cache.allocator.Value()), old(kv.blockTable))
      ensures ok ==> kv == null && Value() == old(Value()).Reset()
      ensures output == old(output) && Value().AllTokens() == old(Value().AllTokens())
      ensures ok ==> Value() == old(Value()).(kv := None, computed := 0, status := Preempted)
      ensures ok && old(kv) != null ==>
        && old(kv).cache.allocator.Valid()
        && old(kv).cache.allocator.Value() == FreeMany(old(kv.cache.allocator.Value()), old(kv.blockTable))
        && old(kv).cache.allocator.cowCopies == old(kv.cache.allocator.cowCopies)
    {
      ok := ReleaseKv();
      if ok {
        computed := 0;
        status := Preempted;
      }
    }
  }

  // ---- queues of requests

  ghost function Views(q: seq<Request>): set<SequenceKV>
    reads q
  {
    set r | r in q && r.kv != null :: r.kv
  }

  /** What a scheduler owns: its KV cache, the objects it may change, and the request of each id. */
  datatype Owner = Owner(cache: PagedKVCache, repr: set<object>, byId: map<nat, Request>)

  /** A request object holds this record, and its view of the cache is its own. */
  ghost predicate Holds(own: Owner, r: Request, rec: Req)
    reads r, r.kv
  {
    && r.Value() == rec && r in own.repr && r.id in own.byId && own.byId[r.id] == r
    && (r.kv != null ==> r.kv in own.repr && r.kv.cache == own.cache && r.kv.owner == r.id)
  }

  /** A queue of objects holds these records, in order. */
  ghost predicate Coupled(own: Owner, q: seq<Request>, rs: seq<Req>)
    reads q, Views(q)
  {
    |q| == |rs| && forall i :: 0 <= i < |q| ==> Holds(own, q[i], rs[i])
  }

  function Except<T>(q: seq<T>, i: nat): seq<T>
    requires i < |q|
  {
    q[..i] + q[i + 1..]
  }

  lemma CoupledExcept(own: Owner, q: seq<Request>, rs: seq<Req>, i: nat)
    requires i < |q| == |rs|
    requires forall j :: 0 <= j < |q| && j != i ==> Holds(own, q[j], rs[j])
    ensures Coupled(own, Except(q, i), Except(rs, i))
  {
  }

  lemma CoupledConcat(own: Owner, q: seq<Request>, rs: seq<Req>, q': seq<Request>, rs': seq<Req>)
    requires Coupled(own, q, rs) && Coupled(own, q', rs')
    ensures Coupled(own, q + q', rs + rs')
  {
  }

  lemma CoupledOne(own: Owner, r: Request, rec: Req)
    requires Holds(own, r, rec)
    ensures Coupled(own, [r], [rec])
  {
  }

  lemma CoupledAll(own: Owner, q: seq<Request>, rs: seq<Req>)
    ensures Coupled(own, q, rs) <==> |q| == |rs| && forall i :: 0 <= i < |q| ==> Holds(own, q[i], rs[i])
  {
  }

  lemma HoldsIs(own: Owner, r: Request, rec: Req)
    requires r.Value() == rec && r in own.repr && r.id in own.byId && own.byId[r.id] == r
    requires r.kv != null ==> r.kv in own.repr && r.kv.cache == own.cache && r.kv.owner == r.id
    ensures Holds(own, r, rec)
  {
  }

  lemma HoldsParts(own: Owner, r: Request, rec: Req)
    requires Holds(own, r, rec)
    ensures r.Value() == rec && r.id == rec.id && r in own.repr && r.id in own.byId && own.byId[r.id] == r
    ensures r.kv != null ==> r.kv in own.repr && r.kv.cache == own.cache && r.kv.owner == r.id
    ensures r.kv != null ==> r.kv.blockTable == rec.Table() && r.kv.length == rec.kv.value.length
    ensures r.kv == null <==> rec.kv.None?
    ensures r.kv != null ==>
      rec.kv == Some(ViewOf(r.kv.cache.blockSize, r.kv.blockTable, r.kv.length, r.kv.numCachedPrefix))
    ensures rec.(kv := None) == Req(r.id, r.prompt, r.maxTokens, r.ignoreEos, r.status, r.output, None, r.computed)
    ensures r.kv == null ==> rec == Req(r.id, r.prompt, r.maxTokens, r.ignoreEos, r.status, r.output, None, r.computed)
    ensures r.status == rec.status && r.output == rec.output && r.computed == rec.computed && r.prompt == rec.prompt
  {
  }

  lemma CoupledIds(own: Owner, q: seq<Request>, rs: seq<Req>)
    requires Coupled(own, q, rs)
    ensures |q| == |rs| && forall i :: 0 <= i < |q| ==> q[i].id == rs[i].id
  {
    hide Views;
  }
}
