/**
 Ring all-reduce as an asynchronous protocol: n ranks, one unbounded FIFO link
 from each rank to the next, no barrier. Chunks and their combination are
 arbitrary.
 */
module Ring {

  /** n ranks, each with n chunks; op combines a local chunk with an incoming one; size counts bytes. */
  datatype Setup<!T> = Setup(n: nat, input: seq<seq<T>>, op: (T, T) -> T, size: T -> nat)

  datatype Rank<T> = Rank(chunks: seq<T>, sent: nat, recvd: nat, bytesSent: nat, bytesReceived: nat)

  /** links[r] is the FIFO into rank r. */
  datatype Net<T> = Net(ranks: seq<Rank<T>>, links: seq<seq<T>>)

  ghost predicate Proper<T(!new)>(u: Setup<T>) {
    && u.n >= 2 && |u.input| == u.n
    && (forall r :: 0 <= r < u.n ==> |u.input[r]| == u.n)
    && (forall r, c :: 0 <= r < u.n && 0 <= c < u.n ==> u.size(u.input[r][c]) == u.size(u.input[0][c]))
    && (forall x, y {:trigger u.op(x, y)} :: u.size(x) == u.size(y) ==> u.size(u.op(x, y)) == u.size(x))
  }

  function Steps(n: nat): int { 2 * (n - 1) }

  function Prev(r: nat, n: nat): (p: nat)
    requires r < n
    ensures p < n
  {
    if r == 0 then n - 1 else r - 1
  }

  function Succ(r: nat, n: nat): (s: nat)
    requires r < n
    ensures s < n && Prev(s, n) == r
  {
    if r == n - 1 then 0 else r + 1
  }

  // ---- chunk indices, phase by phase

  /** Python's % for a positive divisor. */
  function Mod(x: int, n: nat): (m: int)
    requires n > 0
    ensures 0 <= m < n
  {
    x % n
  }

  /** Reduce-scatter for the first n - 1 steps, all-gather for the rest. */
  function SendIdx(r: nat, t: nat, n: nat): (c: int)
    requires n > 0
    ensures 0 <= c < n
  {
    if t < n - 1 then Mod(r - t, n) else Mod(r - (t - (n - 1)) + 1, n)
  }

  function RecvIdx(r: nat, t: nat, n: nat): (c: int)
    requires n > 0
    ensures 0 <= c < n
  {
    if t < n - 1 then Mod(r - t - 1, n) else Mod(r - (t - (n - 1)), n)
  }

  /** Steps from chunk c to rank r along the ring. */
  function Dist(r: nat, c: nat, n: nat): int
    requires r < n && c < n
  {
    if c <= r then r - c else r - c + n
  }

  /** x wraps once or twice at most. */
  function Wrap(x: int, n: nat): int {
    if x >= 0 then x else if x + n >= 0 then x + n else x + 2 * n
  }

  lemma ModIsWrap(x: int, n: nat)
    requires n > 0 && -2 * n <= x < n
    ensures x % n == Wrap(x, n)
  {
    ModUnique(x, n, if x >= 0 then 0 else if x + n >= 0 then -1 else -2);
  }

  lemma ModUnique(x: int, n: nat, k: int)
    requires n > 0 && 0 <= x - k * n < n
    ensures x % n == x - k * n
  {
    var q, rem := x / n, x % n;
    assert x == q * n + rem;
    assert (q - k) * n == q * n - k * n;
    SmallMultiple(q - k, n);
  }

  lemma SmallMultiple(d: int, n: nat)
    requires 0 < n && 0 < n + d * n && d * n < n
    ensures d == 0
  {
    assert (-d) * n == -(d * n);
    if d > 0 {
      AtLeastOnce(d, n);
    } else if d < 0 {
      AtLeastOnce(-d, n);
    }
  }

  lemma AtLeastOnce(d: int, n: nat)
    requires d >= 1
    ensures d * n >= n
  {
    if d > 1 {
      AtLeastOnce(d - 1, n);
      assert d * n == (d - 1) * n + n;
    }
  }

  /** Both phases walk the chunks backwards, one per step. */
  lemma Indices(r: nat, t: nat, n: nat)
    requires n >= 2 && r < n && t < Steps(n)
    ensures SendIdx(r, t, n) == Wrap(r - t, n)
    ensures RecvIdx(r, t, n) == Wrap(r - t - 1, n)
    ensures RecvIdx(r, t, n) == SendIdx(Prev(r, n), t, n)
    ensures Dist(r, SendIdx(r, t, n), n) == if t < n then t else t - n
    ensures Dist(r, RecvIdx(r, t, n), n) == if t + 1 < n then t + 1 else t + 1 - n
  {
    var p := Prev(r, n);
    if t < n - 1 {
      ModIsWrap(r - t, n);
      ModIsWrap(r - t - 1, n);
      ModIsWrap(p - t, n);
    } else {
      var s := t - (n - 1);
      Backwards(r - s + 1, n);
      Backwards(r - s, n);
      Backwards(p - s + 1, n);
    }
  }

  /** The all-gather indices, one turn ahead of the uniform ones. */
  lemma Backwards(x: int, n: nat)
    requires n > 0 && 0 <= x + n && x <= n
    ensures x % n == Wrap(x - n, n)
  {
    if x == n {
      ModUnique(x, n, 1);
    } else {
      ModIsWrap(x, n);
    }
  }

  // ---- the protocol

  predicate CanSend<T>(net: Net<T>, r: nat, n: nat) {
    r < |net.ranks| && net.ranks[r].sent == net.ranks[r].recvd && net.ranks[r].sent < Steps(n)
  }

  predicate CanRecv<T>(net: Net<T>, r: nat, n: nat) {
    && r < |net.ranks| && r < |net.links|
    && net.ranks[r].sent == net.ranks[r].recvd + 1 && net.links[r] != []
  }

  predicate Sized<T>(net: Net<T>, n: nat) {
    && |net.ranks| == n && |net.links| == n
    && forall r :: 0 <= r < n ==> |net.ranks[r].chunks| == n
  }

  function Send<T>(u: Setup<T>, net: Net<T>, r: nat): Net<T>
    requires u.n > 0 && r < u.n && Sized(net, u.n)
  {
    var k, next := net.ranks[r], Succ(r, u.n);
    var payload := k.chunks[SendIdx(r, k.sent, u.n)];
    Net(net.ranks[r := k.(sent := k.sent + 1, bytesSent := k.bytesSent + u.size(payload))],
        net.links[next := net.links[next] + [payload]])
  }

  function Recv<T>(u: Setup<T>, net: Net<T>, r: nat): Net<T>
    requires u.n > 0 && r < u.n && Sized(net, u.n)
    requires net.links[r] != []
  {
    var k, incoming := net.ranks[r], net.links[r][0];
    var c := RecvIdx(r, k.recvd, u.n);
    var chunk := if k.recvd < u.n - 1 then u.op(k.chunks[c], incoming) else incoming;
    Net(net.ranks[r := k.(chunks := k.chunks[c := chunk], recvd := k.recvd + 1,
                          bytesReceived := k.bytesReceived + u.size(incoming))],
        net.links[r := net.links[r][1..]])
  }

  function Start<T>(u: Setup<T>): Net<T>
    requires |u.input| == u.n
  {
    Net(seq(u.n, r requires 0 <= r < u.n => Rank(u.input[r], 0, 0, 0, 0)), seq(u.n, _ => []))
  }

  ghost predicate Done<T>(net: Net<T>, n: nat) {
    forall r :: 0 <= r < |net.ranks| ==> net.ranks[r].recvd == Steps(n)
  }

  // ---- what each step carries

  /** Chunk c folded over ranks c, c + 1, ..., c + k. */
  ghost function Fold<T>(u: Setup<T>, c: nat, k: nat): T
    requires |u.input| == u.n && c < u.n && k < u.n
    requires forall r :: 0 <= r < u.n ==> |u.input[r]| == u.n
  {
    if k == 0 then u.input[c][c]
    else u.op(u.input[if c + k < u.n then c + k else c + k - u.n][c], Fold(u, c, k - 1))
  }

  /** The t-th message of rank r. */
  ghost function Msg<T(!new)>(u: Setup<T>, r: nat, t: nat): T
    requires Proper(u) && r < u.n
  {
    Fold(u, SendIdx(r, t, u.n), if t < u.n then t else u.n - 1)
  }

  /** Chunk c of rank r once it has received k messages. */
  ghost function Val<T(!new)>(u: Setup<T>, r: nat, c: nat, k: nat): T
    requires Proper(u) && r < u.n && c < u.n
  {
    var d := Dist(r, c, u.n);
    if k >= u.n + d then Fold(u, c, u.n - 1)
    else if k >= d then Fold(u, c, d)
    else u.input[r][c]
  }

  /** The bytes of the first t messages of rank r. */
  ghost function BytesOf<T(!new)>(u: Setup<T>, r: nat, t: nat): nat
    requires Proper(u) && r < u.n
  {
    if t == 0 then 0 else BytesOf(u, r, t - 1) + u.size(u.input[0][SendIdx(r, t - 1, u.n)])
  }

  ghost predicate RankOk<T(!new)>(u: Setup<T>, r: nat, k: Rank<T>)
    requires Proper(u) && r < u.n
  {
    && |k.chunks| == u.n
    && (k.sent == k.recvd || k.sent == k.recvd + 1) && k.sent <= Steps(u.n) && k.recvd <= Steps(u.n)
    && (forall c :: 0 <= c < u.n ==> k.chunks[c] == Val(u, r, c, k.recvd))
    && k.bytesSent == BytesOf(u, r, k.sent)
    && k.bytesReceived == BytesOf(u, Prev(r, u.n), k.recvd)
  }

  /** The link holds the messages sent and not yet received, in order. */
  ghost predicate LinkOk<T(!new)>(u: Setup<T>, from: nat, link: seq<T>, sent: nat, recvd: nat)
    requires Proper(u) && from < u.n
  {
    && recvd <= sent && |link| == sent - recvd
    && forall i :: 0 <= i < |link| ==> link[i] == Msg(u, from, recvd + i)
  }

  ghost predicate LinkAt<T(!new)>(u: Setup<T>, net: Net<T>, r: nat)
    requires Proper(u) && |net.ranks| == u.n && |net.links| == u.n && r < u.n
  {
    LinkOk(u, Prev(r, u.n), net.links[r], net.ranks[Prev(r, u.n)].sent, net.ranks[r].recvd)
  }

  ghost predicate RankAt<T(!new)>(u: Setup<T>, net: Net<T>, r: nat)
    requires Proper(u) && |net.ranks| == u.n && r < u.n
  {
    RankOk(u, r, net.ranks[r])
  }

  ghost predicate Inv<T(!new)>(u: Setup<T>, net: Net<T>) {
    && Proper(u) && Sized(net, u.n)
    && (forall r :: 0 <= r < u.n ==> RankAt(u, net, r))
    && (forall r :: 0 <= r < u.n ==> LinkAt(u, net, r))
  }

  /** The parts of the invariant around one rank, without its quantifiers. */
  lemma Around<T(!new)>(u: Setup<T>, net: Net<T>, r: nat)
    requires Inv(u, net) && r < u.n
    ensures Proper(u) && |net.ranks| == u.n && |net.links| == u.n
    ensures RankOk(u, r, net.ranks[r]) && |net.ranks[r].chunks| == u.n
    ensures LinkOk(u, Prev(r, u.n), net.links[r], net.ranks[Prev(r, u.n)].sent, net.ranks[r].recvd)
  {
    assert RankAt(u, net, r) && LinkAt(u, net, r);
    hide LinkOk;
  }

  lemma StartInv<T(!new)>(u: Setup<T>)
    requires Proper(u)
    ensures Inv(u, Start(u))
  {
    forall r | 0 <= r < u.n
      ensures RankAt(u, Start(u), r)
    {
      forall c | 0 <= c < u.n
        ensures Val(u, r, c, 0) == u.input[r][c]
      {
      }
    }
  }

  /** What a rank sends at step t is the fold so far. */
  lemma SendsMsg<T(!new)>(u: Setup<T>, r: nat, t: nat)
    requires Proper(u) && r < u.n && t < Steps(u.n)
    ensures Val(u, r, SendIdx(r, t, u.n), t) == Msg(u, r, t)
  {
    Indices(r, t, u.n);
  }

  /** Receiving message t moves chunk RecvIdx on and no other. */
  lemma ReceiveMoves<T(!new)>(u: Setup<T>, r: nat, t: nat, c: nat)
    requires Proper(u) && r < u.n && t < Steps(u.n) && c < u.n
    ensures c != RecvIdx(r, t, u.n) ==> Val(u, r, c, t + 1) == Val(u, r, c, t)
    ensures c == RecvIdx(r, t, u.n) ==>
      Val(u, r, c, t + 1) ==
        if t < u.n - 1 then u.op(Val(u, r, c, t), Msg(u, Prev(r, u.n), t)) else Msg(u, Prev(r, u.n), t)
  {
    Indices(r, t, u.n);
    hide SendIdx, RecvIdx;
  }

  lemma {:induction false} FoldSize<T(!new)>(u: Setup<T>, c: nat, k: nat)
    requires Proper(u) && c < u.n && k < u.n
    ensures u.size(Fold(u, c, k)) == u.size(u.input[0][c])
    decreases k
  {
    if k > 0 {
      FoldSize(u, c, k - 1);
    }
  }

  lemma SendRank<T(!new)>(u: Setup<T>, r: nat, k: Rank<T>)
    requires Proper(u) && r < u.n && RankOk(u, r, k) && k.sent == k.recvd && k.sent < Steps(u.n)
    ensures k.chunks[SendIdx(r, k.sent, u.n)] == Msg(u, r, k.sent)
    ensures RankOk(u, r, k.(sent := k.sent + 1, bytesSent := k.bytesSent + u.size(k.chunks[SendIdx(r, k.sent, u.n)])))
  {
    hide Val, Fold, Proper, SendIdx;
    SendsMsg(u, r, k.sent);
    FoldSize(u, SendIdx(r, k.sent, u.n), if k.sent < u.n then k.sent else u.n - 1);
  }

  lemma LinkGrows<T(!new)>(u: Setup<T>, from: nat, link: seq<T>, sent: nat, recvd: nat)
    requires Proper(u) && from < u.n && LinkOk(u, from, link, sent, recvd)
    ensures LinkOk(u, from, link + [Msg(u, from, sent)], sent + 1, recvd)
  {
    hide Proper, Msg;
  }

  lemma LinkShrinks<T(!new)>(u: Setup<T>, from: nat, link: seq<T>, sent: nat, recvd: nat)
    requires Proper(u) && from < u.n && LinkOk(u, from, link, sent, recvd) && link != []
    ensures link[0] == Msg(u, from, recvd) && LinkOk(u, from, link[1..], sent, recvd + 1)
  {
    hide Proper, Msg;
    assert link[0] == Msg(u, from, recvd + 0);
    assert forall i :: 0 <= i < |link[1..]| ==> link[1..][i] == link[i + 1];
  }

  lemma SendAt<T(!new)>(u: Setup<T>, net: Net<T>, r: nat, q: nat)
    requires Inv(u, net) && r < u.n && q < u.n && Sized(net, u.n) && CanSend(net, r, u.n)
    ensures Proper(u) && Sized(Send(u, net, r), u.n) && RankAt(u, Send(u, net, r), q) && LinkAt(u, Send(u, net, r), q)
  {
    hide Inv;
    Around(u, net, r);
    Around(u, net, q);
    SendRank(u, r, net.ranks[r]);
    hide RankOk, LinkOk, Msg, SendIdx, Proper;
    assert Prev(q, u.n) == r <==> q == Succ(r, u.n);
    hide Prev, Succ, CanSend;
    if q == Succ(r, u.n) {
      LinkGrows(u, r, net.links[q], net.ranks[r].sent, net.ranks[q].recvd);
    }
  }

  lemma SendKeepsInv<T(!new)>(u: Setup<T>, net: Net<T>, r: nat)
    requires Inv(u, net) && r < u.n && CanSend(net, r, u.n)
    ensures Inv(u, Send(u, net, r))
  {
    hide RankAt, LinkAt, Proper, Send, CanSend;
    SendAt(u, net, r, r);
    forall q | 0 <= q < u.n
      ensures RankAt(u, Send(u, net, r), q) && LinkAt(u, Send(u, net, r), q)
    {
      SendAt(u, net, r, q);
    }
  }

  lemma RecvRank<T(!new)>(u: Setup<T>, r: nat, k: Rank<T>, incoming: T)
    requires Proper(u) && r < u.n && RankOk(u, r, k) && k.recvd < Steps(u.n) && k.sent == k.recvd + 1
    requires incoming == Msg(u, Prev(r, u.n), k.recvd)
    ensures var c := RecvIdx(r, k.recvd, u.n);
      var chunk := if k.recvd < u.n - 1 then u.op(k.chunks[c], incoming) else incoming;
      RankOk(u, r, k.(chunks := k.chunks[c := chunk], recvd := k.recvd + 1, bytesReceived :=
        k.bytesReceived + u.size(incoming)))
  {
    var t, p, c := k.recvd, Prev(r, u.n), RecvIdx(r, k.recvd, u.n);
    var chunk := if t < u.n - 1 then u.op(k.chunks[c], incoming) else incoming;
    FoldSize(u, SendIdx(p, t, u.n), if t < u.n then t else u.n - 1);
    assert u.size(incoming) == u.size(u.input[0][SendIdx(p, t, u.n)]);
    hide Fold, SendIdx, RecvIdx, Val, Proper, Msg;
    var after := k.chunks[c := chunk];
    forall b | 0 <= b < u.n
      ensures after[b] == Val(u, r, b, t + 1)
    {
      ReceiveMoves(u, r, t, b);
    }
  }

  lemma RecvKeepsInv<T(!new)>(u: Setup<T>, net: Net<T>, r: nat)
    requires Inv(u, net) && r < u.n && CanRecv(net, r, u.n)
    ensures Inv(u, Recv(u, net, r))
  {
    Around(u, net, r);
    var net', p := Recv(u, net, r), Prev(r, u.n);
    LinkShrinks(u, p, net.links[r], net.ranks[p].sent, net.ranks[r].recvd);
    RecvRank(u, r, net.ranks[r], net.links[r][0]);
    hide RankOk, LinkOk, Msg, RecvIdx, Proper;
    forall q | 0 <= q < u.n
      ensures RankAt(u, net', q) && LinkAt(u, net', q)
    {
      Around(u, net, q);
    }
  }
}
