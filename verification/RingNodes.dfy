/** The ring's programs: what one rank runs, and the driver that lets the ranks interleave freely. */
module RingNodes {
  import opened Ring
  import opened RingLaws

  /** A connected stream of messages: what will arrive, and what was sent. */
  class Link<T> {
    var pending: seq<T>
    var sent: seq<T>

    constructor (arriving: seq<T>)
      ensures pending == arriving && sent == []
    {
      pending := arriving;
      sent := [];
    }

    method SendMsg(payload: T)
      modifies this
      ensures sent == old(sent) + [payload] && pending == old(pending)
    {
      sent := sent + [payload];
    }

    method RecvMsg() returns (payload: T)
      requires pending != []
      modifies this
      ensures payload == old(pending)[0] && pending == old(pending)[1..] && sent == old(sent)
    {
      payload := pending[0];
      pending := pending[1..];
    }
  }

  /** One round: send, then combine or keep what arrives. */
  function Round<T>(u: Setup<T>, r: nat, k: Rank<T>, incoming: T): (k': Rank<T>)
    requires u.n > 0 && |k.chunks| == u.n
    ensures |k'.chunks| == u.n && k'.sent == k.sent + 1 && k'.recvd == k.recvd + 1
  {
    var c := RecvIdx(r, k.recvd, u.n);
    Rank(k.chunks[c := if k.recvd < u.n - 1 then u.op(k.chunks[c], incoming) else incoming], k.sent + 1, k.recvd + 1,
         k.bytesSent + u.size(k.chunks[SendIdx(r, k.sent, u.n)]), k.bytesReceived + u.size(incoming))
  }

  /** A rank after t rounds on the given arrivals. */
  function Local<T>(u: Setup<T>, r: nat, inbox: seq<T>, t: nat): (k: Rank<T>)
    requires u.n > 0 && r < |u.input| && |u.input[r]| == u.n && t <= |inbox|
    ensures |k.chunks| == u.n && k.sent == t && k.recvd == t
  {
    if t == 0 then Rank(u.input[r], 0, 0, 0, 0) else Round(u, r, Local(u, r, inbox, t - 1), inbox[t - 1])
  }

  /** The messages it sends on the way. */
  function Outbox<T>(u: Setup<T>, r: nat, inbox: seq<T>, t: nat): (out: seq<T>)
    requires u.n > 0 && r < |u.input| && |u.input[r]| == u.n && t <= |inbox|
    ensures |out| == t
  {
    if t == 0 then [] else Outbox(u, r, inbox, t - 1) + [Local(u, r, inbox, t - 1).chunks[SendIdx(r, t - 1, u.n)]]
  }

  lemma BeforeRounds<T>(u: Setup<T>, r: nat, inbox: seq<T>, sent: seq<T>)
    requires u.n > 0 && r < |u.input| && |u.input[r]| == u.n
    ensures Local(u, r, inbox, 0) == Rank(u.input[r], 0, 0, 0, 0)
    ensures sent + Outbox(u, r, inbox, 0) == sent && inbox[0..] == inbox
  {
  }

  lemma Rounds<T>(u: Setup<T>, r: nat, inbox: seq<T>, t: nat)
    requires u.n > 0 && r < |u.input| && |u.input[r]| == u.n && t < |inbox|
    ensures Local(u, r, inbox, t + 1) == Round(u, r, Local(u, r, inbox, t), inbox[t])
    ensures |Local(u, r, inbox, t).chunks| == u.n
    ensures Outbox(u, r, inbox, t + 1) == Outbox(u, r, inbox, t) + [Local(u, r, inbox, t).chunks[SendIdx(r, t, u.n)]]
    ensures inbox[t..] != [] && inbox[t..][0] == inbox[t] && inbox[t..][1..] == inbox[t + 1..]
  {
    hide Round, SendIdx;
  }

  /** A round of the first phase, with that phase's indices. */
  lemma ScatterRound<T>(u: Setup<T>, r: nat, k: Rank<T>, incoming: T)
    requires u.n > 0 && |k.chunks| == u.n && k.sent == k.recvd && k.recvd < u.n - 1
    ensures var s, d := Mod(r - k.recvd, u.n), Mod(r - k.recvd - 1, u.n);
      && SendIdx(r, k.recvd, u.n) == s
      && Round(u, r, k, incoming) ==
           Rank(k.chunks[d := u.op(k.chunks[d], incoming)], k.sent + 1, k.recvd + 1,
                k.bytesSent + u.size(k.chunks[s]), k.bytesReceived + u.size(incoming))
  {
    hide Mod;
  }

  /** A round of the second phase. */
  lemma GatherRound<T>(u: Setup<T>, r: nat, k: Rank<T>, incoming: T, step: nat)
    requires u.n > 0 && |k.chunks| == u.n && k.sent == k.recvd && k.recvd == u.n - 1 + step
    ensures var s, d := Mod(r - step + 1, u.n), Mod(r - step, u.n);
      && SendIdx(r, k.recvd, u.n) == s
      && Round(u, r, k, incoming) ==
           Rank(k.chunks[d := incoming], k.sent + 1, k.recvd + 1,
                k.bytesSent + u.size(k.chunks[s]), k.bytesReceived + u.size(incoming))
  {
    hide Mod;
  }

  class RingNode<T> {
    const rank: nat
    var chunks: seq<T>
    var bytesSent: nat
    var bytesReceived: nat
    var steps: nat

    constructor (r: nat)
      ensures rank == r && bytesSent == 0 && bytesReceived == 0 && steps == 0
    {
      rank := r;
      chunks := [];
      bytesSent, bytesReceived, steps := 0, 0, 0;
    }

    function Value(): Rank<T>
      reads this
    {
      Rank(chunks, steps, steps, bytesSent, bytesReceived)
    }

    /** Phase 1: n - 1 rounds of send, receive, combine. */
    method ReduceScatter(u: Setup<T>, sendSock: Link<T>, recvSock: Link<T>)
      requires u.n >= 2 && rank < |u.input| && |u.input[rank]| == u.n
      requires sendSock != recvSock && |recvSock.pending| >= Steps(u.n)
      requires Value() == Rank(u.input[rank], 0, 0, 0, 0)
      modifies this, sendSock, recvSock
      ensures var inbox := old(recvSock.pending);
        && Value() == Local(u, rank, inbox, u.n - 1)
        && sendSock.sent == old(sendSock.sent) + Outbox(u, rank, inbox, u.n - 1)
        && recvSock.pending == inbox[u.n - 1..]
    {
      hide *;
      ghost var inbox, sentBefore := recvSock.pending, sendSock.sent;
      BeforeRounds(u, rank, inbox, sentBefore);
      StepsIs(u.n);
      ValueIs();
      var step := 0;
      while step < u.n - 1
        invariant step <= u.n - 1 && recvSock.pending == inbox[step..]
        invariant Rank(chunks, steps, steps, bytesSent, bytesReceived) == Local(u, rank, inbox, step)
        invariant sendSock.sent == sentBefore + Outbox(u, rank, inbox, step)
      {
        Rounds(u, rank, inbox, step);
        ghost var k := Local(u, rank, inbox, step);
        assert k == Rank(chunks, steps, steps, bytesSent, bytesReceived);
        LocalCounts(u, rank, inbox, step);
        ScatterRound(u, rank, k, inbox[step]);
        ModBound(rank - step, u.n);
        ModBound(rank - step - 1, u.n);
        var sendIdx, recvIdx := Mod(rank - step, u.n), Mod(rank - step - 1, u.n);
        var payload := chunks[sendIdx];
        sendSock.SendMsg(payload);
        bytesSent := bytesSent + u.size(payload);
        var incoming := recvSock.RecvMsg();
        bytesReceived := bytesReceived + u.size(incoming);
        chunks := chunks[recvIdx := u.op(chunks[recvIdx], incoming)];
        steps := steps + 1;
        step := step + 1;
      }
      ValueIs();
    }

    /** Phase 2: n - 1 rounds of send, receive, keep. */
    method AllGather(u: Setup<T>, sendSock: Link<T>, recvSock: Link<T>, ghost inbox: seq<T>, ghost sentBefore: seq<T>)
      requires u.n >= 2 && rank < |u.input| && |u.input[rank]| == u.n
      requires sendSock != recvSock && |inbox| >= Steps(u.n) && recvSock.pending == inbox[u.n - 1..]
      requires Value() == Local(u, rank, inbox, u.n - 1)
      requires sendSock.sent == sentBefore + Outbox(u, rank, inbox, u.n - 1)
      modifies this, sendSock, recvSock
      ensures Value() == Local(u, rank, inbox, Steps(u.n))
      ensures sendSock.sent == sentBefore + Outbox(u, rank, inbox, Steps(u.n))
      ensures recvSock.pending == inbox[Steps(u.n)..]
    {
      hide *;
      StepsIs(u.n);
      ValueIs();
      var step := 0;
      while step < u.n - 1
        invariant step <= u.n - 1 && recvSock.pending == inbox[u.n - 1 + step..]
        invariant Rank(chunks, steps, steps, bytesSent, bytesReceived) == Local(u, rank, inbox, u.n - 1 + step)
        invariant sendSock.sent == sentBefore + Outbox(u, rank, inbox, u.n - 1 + step)
      {
        Rounds(u, rank, inbox, u.n - 1 + step);
        ghost var k := Local(u, rank, inbox, u.n - 1 + step);
        LocalCounts(u, rank, inbox, u.n - 1 + step);
        GatherRound(u, rank, k, inbox[u.n - 1 + step], step);
        var sendIdx, recvIdx := Mod(rank - step + 1, u.n), Mod(rank - step, u.n);
        ModBound(rank - step + 1, u.n);
        ModBound(rank - step, u.n);
        var payload := chunks[sendIdx];
        sendSock.SendMsg(payload);
        bytesSent := bytesSent + u.size(payload);
        var incoming := recvSock.RecvMsg();
        bytesReceived := bytesReceived + u.size(incoming);
        chunks := chunks[recvIdx := incoming];
        steps := steps + 1;
        step := step + 1;
      }
      ValueIs();
    }

    /** Reduce-scatter, then all-gather. */
    method Run(u: Setup<T>, sendSock: Link<T>, recvSock: Link<T>)
      requires u.n >= 2 && rank < |u.input| && |u.input[rank]| == u.n
      requires sendSock != recvSock && |recvSock.pending| >= Steps(u.n)
      modifies this, sendSock, recvSock
      ensures var inbox := old(recvSock.pending);
        && Value() == Local(u, rank, inbox, Steps(u.n))
        && sendSock.sent == old(sendSock.sent) + Outbox(u, rank, inbox, Steps(u.n))
        && recvSock.pending == inbox[Steps(u.n)..]
    {
      ghost var inbox, sentBefore := recvSock.pending, sendSock.sent;
      chunks := u.input[rank];
      bytesSent, bytesReceived, steps := 0, 0, 0;
      ReduceScatter(u, sendSock, recvSock);
      AllGather(u, sendSock, recvSock, inbox, sentBefore);
    }

    lemma ValueIs()
      ensures Value() == Rank(chunks, steps, steps, bytesSent, bytesReceived)
    {
    }
  }

  lemma StepsIs(n: nat)
    ensures Steps(n) == 2 * (n - 1)
  {
  }

  lemma ModBound(x: int, n: nat)
    requires n > 0
    ensures 0 <= Mod(x, n) < n
  {
  }

  /** A rank that receives the right messages sends the right messages: the program is the transition system's rank. */
  lemma {:induction false} LocalIsRank<T(!new)>(u: Setup<T>, r: nat, inbox: seq<T>, t: nat)
    requires Proper(u) && r < u.n && t <= |inbox| && t <= Steps(u.n)
    requires forall i :: 0 <= i < |inbox| ==> inbox[i] == Msg(u, Prev(r, u.n), i)
    ensures RankOk(u, r, Local(u, r, inbox, t))
    ensures forall i :: 0 <= i < t ==> Outbox(u, r, inbox, t)[i] == Msg(u, r, i)
    decreases t
  {
    hide *;
    Defined(u, r);
    if t == 0 {
      FirstRank(u, r);
      FirstRound(u, r, inbox);
    } else {
      LocalIsRank(u, r, inbox, t - 1);
      Rounds(u, r, inbox, t - 1);
      LocalCounts(u, r, inbox, t - 1);
      assert inbox[t - 1] == Msg(u, Prev(r, u.n), t - 1);
      RoundKeepsRank(u, r, Local(u, r, inbox, t - 1), inbox[t - 1]);
    }
  }

  lemma Defined<T(!new)>(u: Setup<T>, r: nat)
    requires Proper(u) && r < u.n
    ensures u.n >= 2 && |u.input| == u.n && |u.input[r]| == u.n
  {
  }

  lemma LocalCounts<T>(u: Setup<T>, r: nat, inbox: seq<T>, t: nat)
    requires u.n > 0 && r < |u.input| && |u.input[r]| == u.n && t <= |inbox|
    ensures var k := Local(u, r, inbox, t);
      |k.chunks| == u.n && k.sent == t && k.recvd == t && |Outbox(u, r, inbox, t)| == t
  {
  }

  lemma FirstRound<T>(u: Setup<T>, r: nat, inbox: seq<T>)
    requires u.n > 0 && r < |u.input| && |u.input[r]| == u.n
    ensures Local(u, r, inbox, 0) == Rank(u.input[r], 0, 0, 0, 0)
  {
  }

  lemma RoundKeepsRank<T(!new)>(u: Setup<T>, r: nat, k: Rank<T>, incoming: T)
    requires Proper(u) && r < u.n && RankOk(u, r, k) && k.sent == k.recvd && k.recvd < Steps(u.n)
    requires |k.chunks| == u.n && incoming == Msg(u, Prev(r, u.n), k.recvd)
    ensures u.n > 0 && RankOk(u, r, Round(u, r, k, incoming))
    ensures k.chunks[SendIdx(r, k.sent, u.n)] == Msg(u, r, k.sent)
  {
    assert u.n > 0;
    hide RankOk, Msg, SendIdx, RecvIdx, Proper;
    SendRank(u, r, k);
    var k1 := k.(sent := k.sent + 1, bytesSent := k.bytesSent + u.size(k.chunks[SendIdx(r, k.sent, u.n)]));
    RecvRank(u, r, k1, incoming);
  }

  lemma FirstRank<T(!new)>(u: Setup<T>, r: nat)
    requires Proper(u) && r < u.n
    ensures RankOk(u, r, Rank(u.input[r], 0, 0, 0, 0))
  {
    StartInv(u);
    Around(u, Start(u), r);
  }

  /** So every rank's program ends with the reduced tensor. */
  lemma NodeReduces<T(!new)>(u: Setup<T>, r: nat, inbox: seq<T>)
    requires Proper(u) && r < u.n && |inbox| >= Steps(u.n)
    requires forall i :: 0 <= i < |inbox| ==> inbox[i] == Msg(u, Prev(r, u.n), i)
    ensures Local(u, r, inbox, Steps(u.n)).chunks == Reduced(u)
  {
    LocalIsRank(u, r, inbox, Steps(u.n));
    hide RankOk, Msg, Proper;
    RankAgrees(u, r, Local(u, r, inbox, Steps(u.n)));
  }

  /**
   All ranks at once, in any order the links allow: every execution ends, and every rank
   agrees. What is interleaved is the transition system's Send and Recv, not the methods of
   the node objects, whose Run takes all its messages at once. LocalIsRank ties the two: a
   node that is given its neighbour's messages sends, and holds after each round, what its
   rank does here.
   */
  method RunRing<T(!new)>(u: Setup<T>) returns (net: Net<T>)
    requires Proper(u)
    ensures Inv(u, net) && Done(net, u.n)
    ensures forall r :: 0 <= r < u.n ==> net.ranks[r].chunks == Reduced(u)
    ensures forall r :: 0 <= r < u.n ==>
      net.ranks[r].bytesSent + SizeOf(u, Ahead(r, 1, u.n)) + SizeOf(u, Ahead(r, 2, u.n)) == 2 * Total(u)
  {
    net := Start(u);
    StartInv(u);
    ghost var actions: seq<Action> := [];
    while exists r :: 0 <= r < u.n && (CanSend(net, r, u.n) || CanRecv(net, r, u.n))
      invariant Inv(u, net) && Play(u, actions).Some? && Play(u, actions).value == net
      decreases u.n * (2 * Steps(u.n)) - |actions|
    {
      var r :| 0 <= r < u.n && (CanSend(net, r, u.n) || CanRecv(net, r, u.n));
      ghost var a := if CanSend(net, r, u.n) then SendBy(r) else RecvBy(r);
      ActKeepsInv(u, net, a);
      assert (actions + [a])[..|actions|] == actions;
      EveryRunEnds(u, actions + [a]);
      if CanSend(net, r, u.n) {
        net := Send(u, net, r);
      } else {
        net := Recv(u, net, r);
      }
      actions := actions + [a];
    }
    if !Done(net, u.n) {
      var a := NeverDeadlocks(u, net);
    }
    forall r | 0 <= r < u.n
      ensures net.ranks[r].chunks == Reduced(u)
      ensures net.ranks[r].bytesSent + SizeOf(u, Ahead(r, 1, u.n)) + SizeOf(u, Ahead(r, 2, u.n)) == 2 * Total(u)
    {
      AllRanksAgree(u, actions, r);
      FinalCounters(u, actions, r);
    }
  }
}
