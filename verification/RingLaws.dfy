/** What the ring promises under every interleaving: agreement, no deadlock, bounded traffic. */
module RingLaws {
  import opened Ring
  import opened Options

  // ---- runs

  datatype Action = SendBy(r: nat) | RecvBy(r: nat)

  predicate Enabled<T>(net: Net<T>, a: Action, n: nat) {
    match a
    case SendBy(r) => r < n && CanSend(net, r, n)
    case RecvBy(r) => r < n && CanRecv(net, r, n)
  }

  function Act<T>(u: Setup<T>, net: Net<T>, a: Action): Net<T>
    requires u.n > 0 && Sized(net, u.n) && Enabled(net, a, u.n)
  {
    match a
    case SendBy(r) => Send(u, net, r)
    case RecvBy(r) => Recv(u, net, r)
  }

  /** The state after an interleaving; None when an action is not enabled. */
  function Play<T>(u: Setup<T>, actions: seq<Action>): (net: Option<Net<T>>)
    requires u.n > 0 && |u.input| == u.n && forall r :: 0 <= r < u.n ==> |u.input[r]| == u.n
    ensures net.Some? ==> Sized(net.value, u.n)
    decreases |actions|
  {
    if actions == [] then Some(Start(u))
    else
      var net, a := Play(u, actions[..|actions| - 1]), actions[|actions| - 1];
      if net.None? || !Enabled(net.value, a, u.n) then None else Some(Act(u, net.value, a))
  }

  lemma ActKeepsInv<T(!new)>(u: Setup<T>, net: Net<T>, a: Action)
    requires Inv(u, net) && Enabled(net, a, u.n)
    ensures Inv(u, Act(u, net, a))
  {
    hide Inv, Send, Recv;
    match a
    case SendBy(r) => SendKeepsInv(u, net, r);
    case RecvBy(r) => RecvKeepsInv(u, net, r);
  }

  lemma {:induction false} PlayInv<T(!new)>(u: Setup<T>, actions: seq<Action>)
    requires Proper(u) && Play(u, actions).Some?
    ensures Inv(u, Play(u, actions).value)
    decreases |actions|
  {
    hide Inv, Act, Enabled, Start;
    if actions == [] {
      StartInv(u);
    } else {
      PlayInv(u, actions[..|actions| - 1]);
      ActKeepsInv(u, Play(u, actions[..|actions| - 1]).value, actions[|actions| - 1]);
    }
  }

  // ---- agreement

  /** The reduced tensor, chunk by chunk: each folded in ring order from its own rank. */
  ghost function Reduced<T(!new)>(u: Setup<T>): seq<T>
    requires Proper(u)
  {
    seq(u.n, c requires 0 <= c < u.n => Fold(u, c, u.n - 1))
  }

  lemma LastVal<T(!new)>(u: Setup<T>, r: nat, c: nat)
    requires Proper(u) && r < u.n && c < u.n
    ensures Val(u, r, c, Steps(u.n)) == Fold(u, c, u.n - 1)
  {
    hide Proper, Fold;
  }

  /** Whatever the interleaving and the operation, every rank ends with the same reduced tensor. */
  lemma AllRanksAgree<T(!new)>(u: Setup<T>, actions: seq<Action>, r: nat)
    requires Proper(u) && Play(u, actions).Some? && Done(Play(u, actions).value, u.n) && r < u.n
    ensures Play(u, actions).value.ranks[r].chunks == Reduced(u)
  {
    var net := Play(u, actions).value;
    PlayInv(u, actions);
    assert net.ranks[r].recvd == Steps(u.n);
    Around(u, net, r);
    RankAgrees(u, r, net.ranks[r]);
  }

  lemma RankAgrees<T(!new)>(u: Setup<T>, r: nat, k: Rank<T>)
    requires Proper(u) && r < u.n && RankOk(u, r, k) && k.recvd == Steps(u.n)
    ensures k.chunks == Reduced(u)
  {
    forall c | 0 <= c < u.n
      ensures k.chunks[c] == Fold(u, c, u.n - 1)
    {
      LastVal(u, r, c);
    }
    hide Proper, Fold, Val, BytesOf;
  }

  // ---- no deadlock

  lemma {:induction false} Slowest<T>(ranks: seq<Rank<T>>) returns (r: nat)
    requires ranks != []
    ensures r < |ranks| && forall q :: 0 <= q < |ranks| ==> ranks[r].recvd <= ranks[q].recvd
    decreases |ranks|
  {
    var last := |ranks| - 1;
    if last == 0 {
      r := 0;
    } else {
      r := Slowest(ranks[..last]);
      assert forall q :: 0 <= q < last ==> ranks[q] == ranks[..last][q];
      if ranks[last].recvd < ranks[r].recvd {
        r := last;
      }
    }
  }

  /** Every unfinished state has an enabled step: the slowest rank, or the one before it, can move. */
  lemma NeverDeadlocks<T(!new)>(u: Setup<T>, net: Net<T>) returns (a: Action)
    requires Inv(u, net) && !Done(net, u.n)
    ensures Enabled(net, a, u.n)
  {
    assert Proper(u) && |net.ranks| == u.n;
    var r := Slowest(net.ranks);
    var p := Prev(r, u.n);
    Around(u, net, r);
    Around(u, net, p);
    hide Inv, Proper, Val, BytesOf, Msg;
    assert net.ranks[r].recvd < Steps(u.n) by {
      var q :| 0 <= q < |net.ranks| && net.ranks[q].recvd != Steps(u.n);
      Around(u, net, q);
    }
    if net.ranks[r].sent == net.ranks[r].recvd {
      a := SendBy(r);
    } else if net.links[r] != [] {
      a := RecvBy(r);
    } else {
      a := SendBy(p);
    }
  }

  // ---- termination

  function Moves<T>(ranks: seq<Rank<T>>): nat {
    if ranks == [] then 0 else ranks[0].sent + ranks[0].recvd + Moves(ranks[1..])
  }

  lemma {:induction false} MovesUpdate<T>(ranks: seq<Rank<T>>, r: nat, k: Rank<T>)
    requires r < |ranks|
    ensures Moves(ranks[r := k]) == Moves(ranks) - (ranks[r].sent + ranks[r].recvd) + (k.sent + k.recvd)
    decreases |ranks|
  {
    if r > 0 {
      assert ranks[r := k][1..] == ranks[1..][r - 1 := k];
      MovesUpdate(ranks[1..], r - 1, k);
    } else {
      assert ranks[r := k][1..] == ranks[1..];
    }
  }

  lemma {:induction false} MovesBound<T>(ranks: seq<Rank<T>>, bound: nat)
    requires forall r :: 0 <= r < |ranks| ==> ranks[r].sent <= bound && ranks[r].recvd <= bound
    ensures Moves(ranks) <= |ranks| * (2 * bound)
    decreases |ranks|
  {
    if ranks != [] {
      MovesBound(ranks[1..], bound);
      assert |ranks| * (2 * bound) == (|ranks| - 1) * (2 * bound) + 2 * bound;
    }
  }

  lemma {:induction false} PlayMoves<T(!new)>(u: Setup<T>, actions: seq<Action>)
    requires Proper(u) && Play(u, actions).Some?
    ensures Moves(Play(u, actions).value.ranks) == |actions|
    decreases |actions|
  {
    hide SendIdx, RecvIdx;
    if actions == [] {
      StartMoves(Start(u).ranks);
    } else {
      var net, a := Play(u, actions[..|actions| - 1]).value, actions[|actions| - 1];
      PlayMoves(u, actions[..|actions| - 1]);
      MovesUpdate(net.ranks, a.r, Act(u, net, a).ranks[a.r]);
    }
  }

  lemma {:induction false} StartMoves<T>(ranks: seq<Rank<T>>)
    requires forall r :: 0 <= r < |ranks| ==> ranks[r].sent == 0 && ranks[r].recvd == 0
    ensures Moves(ranks) == 0
    decreases |ranks|
  {
    if ranks != [] {
      StartMoves(ranks[1..]);
    }
  }

  /** Every interleaving ends after at most 2(n-1) sends and 2(n-1) receives per rank. */
  lemma EveryRunEnds<T(!new)>(u: Setup<T>, actions: seq<Action>)
    requires Proper(u) && Play(u, actions).Some?
    ensures |actions| <= u.n * (2 * Steps(u.n))
    ensures |actions| == u.n * (2 * Steps(u.n)) <==> Done(Play(u, actions).value, u.n)
  {
    PlayInv(u, actions);
    PlayMoves(u, actions);
    var net := Play(u, actions).value;
    hide Play, Proper, Steps, Moves;
    ReceivesBounded(u, net);
    assert |net.ranks| == u.n && Steps(u.n) >= 0;
    hide Inv;
    MovesBound(net.ranks, Steps(u.n));
    MovesFull(net.ranks, Steps(u.n));
    MovesShort(net.ranks, Steps(u.n));
  }

  lemma ReceivesBounded<T(!new)>(u: Setup<T>, net: Net<T>)
    requires Inv(u, net)
    ensures Steps(u.n) >= 0
    ensures forall r :: 0 <= r < |net.ranks| ==> net.ranks[r].recvd <= net.ranks[r].sent <= Steps(u.n)
  {
    assert Steps(u.n) >= 0;
    hide RankAt, LinkAt, Proper, Steps;
    forall r | 0 <= r < |net.ranks|
      ensures net.ranks[r].recvd <= net.ranks[r].sent <= Steps(u.n)
    {
      Around(u, net, r);
      RankBounded(u, r, net.ranks[r]);
    }
  }

  lemma RankBounded<T(!new)>(u: Setup<T>, r: nat, k: Rank<T>)
    requires Proper(u) && r < u.n && RankOk(u, r, k)
    ensures k.recvd <= k.sent <= Steps(u.n)
  {
    hide Proper, Val, BytesOf;
  }

  lemma {:induction false} MovesFull<T>(ranks: seq<Rank<T>>, bound: nat)
    requires forall r :: 0 <= r < |ranks| ==> ranks[r].recvd <= ranks[r].sent <= bound
    ensures (forall r :: 0 <= r < |ranks| ==> ranks[r].recvd == bound) ==> Moves(ranks) == |ranks| * (2 * bound)
    decreases |ranks|
  {
    if ranks != [] {
      MovesFull(ranks[1..], bound);
      assert |ranks| * (2 * bound) == (|ranks| - 1) * (2 * bound) + 2 * bound;
    }
  }

  lemma {:induction false} MovesShort<T>(ranks: seq<Rank<T>>, bound: nat)
    requires forall r :: 0 <= r < |ranks| ==> ranks[r].recvd <= ranks[r].sent <= bound
    ensures Moves(ranks) == |ranks| * (2 * bound) ==> forall r :: 0 <= r < |ranks| ==> ranks[r].recvd == bound
    decreases |ranks|
  {
    if ranks != [] {
      MovesBound(ranks[1..], bound);
      MovesShort(ranks[1..], bound);
      assert |ranks| * (2 * bound) == (|ranks| - 1) * (2 * bound) + 2 * bound;
      assert forall r :: 0 < r < |ranks| ==> ranks[r] == ranks[1..][r - 1];
    }
  }

  // ---- bounded queues

  /** No rank is more than one message ahead of what the rank before it has sent. */
  lemma NeighboursAreClose<T(!new)>(u: Setup<T>, net: Net<T>, r: nat)
    requires Inv(u, net) && r < u.n
    ensures net.ranks[r].sent <= net.ranks[Prev(r, u.n)].sent + 1
  {
    Around(u, net, r);
    hide Inv, Proper, Val, BytesOf, Msg;
  }

  /** Around the ring, the rank k places back has sent at least sent - k. */
  lemma {:induction false} RingIsClose<T(!new)>(u: Setup<T>, net: Net<T>, r: nat, k: nat) returns (q: nat)
    requires Inv(u, net) && r < u.n && k < u.n
    ensures q == (if k <= r then r - k else r - k + u.n)
    ensures net.ranks[r].sent <= net.ranks[q].sent + k
    decreases k
  {
    hide RankAt, LinkAt, Proper;
    if k == 0 {
      q := r;
    } else {
      var p := RingIsClose(u, net, r, k - 1);
      NeighboursAreClose(u, net, p);
      q := Prev(p, u.n);
    }
  }

  /** No link ever holds more than n messages. */
  lemma QueuesAreBounded<T(!new)>(u: Setup<T>, net: Net<T>, r: nat)
    requires Inv(u, net) && r < u.n
    ensures |net.links[r]| <= u.n
  {
    var p := Prev(r, u.n);
    assert Proper(u);
    var q := RingIsClose(u, net, p, u.n - 1);
    assert q == r;
    Around(u, net, r);
    hide Inv, Proper, Val, BytesOf, Msg;
  }

  // ---- traffic

  ghost function SizeOf<T(!new)>(u: Setup<T>, c: nat): nat
    requires Proper(u) && c < u.n
  {
    u.size(u.input[0][c])
  }

  /** The bytes of chunks 0..k-1. */
  ghost function Prefix<T(!new)>(u: Setup<T>, k: nat): nat
    requires Proper(u) && k <= u.n
  {
    if k == 0 then 0 else Prefix(u, k - 1) + SizeOf(u, k - 1)
  }

  /** The bytes of a whole tensor. */
  ghost function Total<T(!new)>(u: Setup<T>): nat
    requires Proper(u)
  {
    Prefix(u, u.n)
  }

  lemma {:induction false} FirstLap<T(!new)>(u: Setup<T>, r: nat, t: nat)
    requires Proper(u) && r < u.n && t <= u.n
    ensures t <= r + 1 ==> BytesOf(u, r, t) == Prefix(u, r + 1) - Prefix(u, r + 1 - t)
    ensures t > r + 1 ==> BytesOf(u, r, t) == Prefix(u, r + 1) + Prefix(u, u.n) - Prefix(u, u.n - (t - r - 1))
    decreases t
  {
    if t > 0 {
      FirstLap(u, r, t - 1);
      Indices(r, t - 1, u.n);
      hide SendIdx, Proper;
    }
  }

  lemma {:induction false} SecondLap<T(!new)>(u: Setup<T>, r: nat, k: nat)
    requires Proper(u) && r < u.n && k <= u.n - 2
    ensures BytesOf(u, r, u.n + k) == BytesOf(u, r, u.n) + BytesOf(u, r, k)
    decreases k
  {
    if k > 0 {
      SecondLap(u, r, k - 1);
      Indices(r, u.n + k - 1, u.n);
      Indices(r, k - 1, u.n);
      hide SendIdx, Proper;
    }
  }

  /** The rank j places on. */
  function Ahead(r: nat, j: nat, n: nat): nat
    requires r < n && j <= n
  {
    if r + j < n then r + j else r + j - n
  }

  /** A rank sends two tensors less the two chunks after its own. */
  lemma BytesPerRank<T(!new)>(u: Setup<T>, r: nat)
    requires Proper(u) && r < u.n
    ensures BytesOf(u, r, Steps(u.n)) + SizeOf(u, Ahead(r, 1, u.n)) + SizeOf(u, Ahead(r, 2, u.n)) == 2 * Total(u)
  {
    FirstLap(u, r, u.n);
    SecondLap(u, r, u.n - 2);
    LastTwo(u, r);
    hide Proper, Prefix, BytesOf, SizeOf, Ahead;
  }

  lemma LastTwo<T(!new)>(u: Setup<T>, r: nat)
    requires Proper(u) && r < u.n
    ensures BytesOf(u, r, u.n) == BytesOf(u, r, u.n - 2) + SizeOf(u, Ahead(r, 1, u.n)) + SizeOf(u, Ahead(r, 2, u.n))
  {
    var n := u.n;
    Indices(r, n - 1, n);
    Indices(r, n - 2, n);
    hide Proper, SendIdx;
    assert BytesOf(u, r, n) == BytesOf(u, r, n - 1) + SizeOf(u, Ahead(r, 1, n));
    assert BytesOf(u, r, n - 1) == BytesOf(u, r, n - 2) + SizeOf(u, Ahead(r, 2, n));
  }

  /** The bandwidth formula 2(n-1)/n of the tensor is exact for a rank just when its two skipped chunks are average. */
  lemma BandwidthFormula<T(!new)>(u: Setup<T>, r: nat)
    requires Proper(u) && r < u.n
    ensures u.n * BytesOf(u, r, Steps(u.n)) == 2 * (u.n - 1) * Total(u) <==>
      u.n * (SizeOf(u, Ahead(r, 1, u.n)) + SizeOf(u, Ahead(r, 2, u.n))) == 2 * Total(u)
  {
    BytesPerRank(u, r);
    hide Proper, Prefix, Total, BytesOf, SizeOf;
    var n, b, s, total := u.n, BytesOf(u, r, Steps(u.n)), SizeOf(u, Ahead(r, 1, u.n)) +
      SizeOf(u, Ahead(r, 2, u.n)), Total(u);
    Distribute(n, b, s, total);
  }

  lemma Distribute(n: nat, b: nat, s: nat, total: nat)
    requires b + s == 2 * total
    ensures n * b + n * s == 2 * (n * total)
    ensures 2 * (n - 1) * total == 2 * (n * total) - 2 * total
  {
    assert n * (b + s) == n * b + n * s;
    assert n * (2 * total) == 2 * (n * total);
    assert 2 * (n - 1) * total == 2 * ((n - 1) * total);
    assert (n - 1) * total == n * total - total;
  }

  /** The sizes of the chunks j places after ranks 0..k-1. */
  ghost function Skipped<T(!new)>(u: Setup<T>, j: nat, k: nat): nat
    requires Proper(u) && j <= u.n && k <= u.n
  {
    if k == 0 then 0 else Skipped(u, j, k - 1) + SizeOf(u, Ahead(k - 1, j, u.n))
  }

  lemma {:induction false} SkippedSum<T(!new)>(u: Setup<T>, j: nat, k: nat)
    requires Proper(u) && j <= u.n && k <= u.n
    ensures k <= u.n - j ==> Skipped(u, j, k) == Prefix(u, j + k) - Prefix(u, j)
    ensures k > u.n - j ==> Skipped(u, j, k) == Prefix(u, u.n) - Prefix(u, j) + Prefix(u, k - (u.n - j))
    decreases k
  {
    hide Proper, SizeOf;
    if k > 0 {
      SkippedSum(u, j, k - 1);
    }
  }

  ghost function SentBy<T(!new)>(u: Setup<T>, k: nat): nat
    requires Proper(u) && k <= u.n
  {
    if k == 0 then 0 else SentBy(u, k - 1) + BytesOf(u, k - 1, Steps(u.n))
  }

  lemma {:induction false} SentSum<T(!new)>(u: Setup<T>, k: nat)
    requires Proper(u) && k <= u.n
    ensures SentBy(u, k) + Skipped(u, 1, k) + Skipped(u, 2, k) == 2 * k * Total(u)
    decreases k
  {
    hide Proper, BytesOf, Total;
    if k > 0 {
      SentSum(u, k - 1);
      BytesPerRank(u, k - 1);
      assert 2 * k * Total(u) == 2 * (k - 1) * Total(u) + 2 * Total(u);
    }
  }

  /** All ranks together send 2(n-1) tensors. */
  lemma TotalTraffic<T(!new)>(u: Setup<T>)
    requires Proper(u)
    ensures SentBy(u, u.n) == 2 * (u.n - 1) * Total(u)
  {
    SentSum(u, u.n);
    SkippedSum(u, 1, u.n);
    SkippedSum(u, 2, u.n);
    assert Skipped(u, 1, u.n) == Total(u) && Skipped(u, 2, u.n) == Total(u);
    assert 2 * u.n * Total(u) == 2 * (u.n - 1) * Total(u) + 2 * Total(u);
  }

  /** At the end each rank's counters hold exactly what it sent and what the rank before it sent. */
  lemma FinalCounters<T(!new)>(u: Setup<T>, actions: seq<Action>, r: nat)
    requires Proper(u) && Play(u, actions).Some? && Done(Play(u, actions).value, u.n) && r < u.n
    ensures var k, p := Play(u, actions).value.ranks[r], Prev(r, u.n);
      && k.bytesSent + SizeOf(u, Ahead(r, 1, u.n)) + SizeOf(u, Ahead(r, 2, u.n)) == 2 * Total(u)
      && k.bytesReceived + SizeOf(u, Ahead(p, 1, u.n)) + SizeOf(u, Ahead(p, 2, u.n)) == 2 * Total(u)
      && k.sent == Steps(u.n)
  {
    PlayInv(u, actions);
    Around(u, Play(u, actions).value, r);
    hide Proper, Inv, Play, LinkOk, Val, Total, SizeOf;
    BytesPerRank(u, r);
    BytesPerRank(u, Prev(r, u.n));
    hide BytesOf;
  }
}
