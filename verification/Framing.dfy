/** Length-prefixed messages over a byte stream that arrives in pieces of any size. */
module Framing {
  import opened Options

  newtype Byte = x: int | 0 <= x < 256

  const LIMIT: int := 0x1_0000_0000

  // ---- the wire format

  /** A payload length as four bytes, most significant first. */
  function Header(n: nat): (h: seq<Byte>)
    requires n < LIMIT
    ensures |h| == 4
  {
    [(n / 0x100_0000) as Byte, (n / 0x1_0000 % 256) as Byte, (n / 256 % 256) as Byte, (n % 256) as Byte]
  }

  function Length(h: seq<Byte>): nat
    requires |h| == 4
  {
    ((h[0] as int * 256 + h[1] as int) * 256 + h[2] as int) * 256 + h[3] as int
  }

  lemma HeaderRoundTrip(n: nat)
    requires n < LIMIT
    ensures Length(Header(n)) == n
  {
    var a, b, c := n / 256, n / 0x1_0000, n / 0x100_0000;
    assert b == a / 256 && c == b / 256;
    assert c % 256 == c;
  }

  /** Network byte order: the number is its bytes in base 256, the most significant first. */
  lemma HeaderBytes(n: nat, k: nat)
    requires n < LIMIT && k < 4
    ensures Header(n)[k] as int == n / Power256(3 - k) % 256
    ensures n == Header(n)[0] as int * 0x100_0000 + Header(n)[1] as int * 0x1_0000 + Header(n)[2] as int * 0x100
      + Header(n)[3] as int
  {
    var a, b, c := n / 256, n / 0x1_0000, n / 0x100_0000;
    assert b == a / 256 && c == b / 256 && c % 256 == c;
    assert Power256(1) == 256 && Power256(2) == 0x1_0000 && Power256(3) == 0x100_0000;
  }

  function Power256(k: nat): (p: nat)
    ensures p > 0
  {
    if k == 0 then 1 else 256 * Power256(k - 1)
  }

  function Frame(payload: seq<Byte>): seq<Byte>
    requires |payload| < LIMIT
  {
    Header(|payload|) + payload
  }

  function FrameAll(payloads: seq<seq<Byte>>): seq<Byte>
    requires forall p :: p in payloads ==> |p| < LIMIT
  {
    if payloads == [] then [] else Frame(payloads[0]) + FrameAll(payloads[1..])
  }

  /** The first message of a stream and what follows it; None when the stream ends inside it. */
  function Parse(stream: seq<Byte>): Option<(seq<Byte>, seq<Byte>)> {
    if |stream| < 4 then None
    else
      var n := Length(stream[..4]);
      if |stream| - 4 < n then None else Some((stream[4..4 + n], stream[4 + n..]))
  }

  lemma ParseFrame(payload: seq<Byte>, rest: seq<Byte>)
    requires |payload| < LIMIT
    ensures Parse(Frame(payload) + rest) == Some((payload, rest))
  {
    var stream := Frame(payload) + rest;
    HeaderRoundTrip(|payload|);
    assert stream[..4] == Header(|payload|);
    assert stream[4..4 + |payload|] == payload;
    assert stream[4 + |payload|..] == rest;
  }

  /** The first k messages of a stream. */
  function ParseMany(stream: seq<Byte>, k: nat): Option<(seq<seq<Byte>>, seq<Byte>)> {
    if k == 0 then Some(([], stream))
    else
      match Parse(stream)
      case None => None
      case Some((first, rest)) =>
        match ParseMany(rest, k - 1)
        case None => None
        case Some((others, end)) => Some(([first] + others, end))
  }

  lemma FrameFirst(payloads: seq<seq<Byte>>, rest: seq<Byte>)
    requires payloads != [] && forall p :: p in payloads ==> |p| < LIMIT
    ensures FrameAll(payloads) + rest == Frame(payloads[0]) + (FrameAll(payloads[1..]) + rest)
    ensures payloads == [payloads[0]] + payloads[1..]
  {
    hide Frame;
  }

  lemma NoFrames(rest: seq<Byte>)
    ensures FrameAll([]) + rest == rest && ParseMany(rest, 0) == Some(([], rest))
  {
    assert [] + rest == rest;
  }

  /** Framing round trip: any payloads come back, in order, with nothing left over. */
  lemma {:induction false} FramingRoundTrip(payloads: seq<seq<Byte>>, rest: seq<Byte>)
    requires forall p :: p in payloads ==> |p| < LIMIT
    ensures ParseMany(FrameAll(payloads) + rest, |payloads|) == Some((payloads, rest))
    decreases |payloads|
  {
    hide *;
    if payloads == [] {
      NoFrames(rest);
    } else {
      FramingRoundTrip(payloads[1..], rest);
      FrameFirst(payloads, rest);
      ParseFrame(payloads[0], FrameAll(payloads[1..]) + rest);
      ParseManyStep(FrameAll(payloads) + rest, |payloads|, payloads[0], FrameAll(payloads[1..]) +
        rest, payloads[1..], rest);
    }
  }

  lemma ParseManyStep(stream: seq<Byte>, k: nat, first: seq<Byte>, next: seq<Byte>, others: seq<seq<Byte>>,
                      end: seq<Byte>)
    requires k > 0 && Parse(stream) == Some((first, next)) && ParseMany(next, k - 1) == Some((others, end))
    ensures ParseMany(stream, k) == Some(([first] + others, end))
  {
    hide Parse;
  }

  // ---- sockets

  /** A connected stream socket: the bytes the peer will have sent before it closes, and what was written. */
  class Socket {
    var stream: seq<Byte>
    var written: seq<Byte>

    constructor (arriving: seq<Byte>)
      ensures stream == arriving && written == []
    {
      stream := arriving;
      written := [];
    }

    /** Some of the next bytes, at least one unless the peer has closed. */
    method Recv(most: nat) returns (chunk: seq<Byte>)
      requires most > 0
      modifies this
      ensures chunk + stream == old(stream) && |chunk| <= most
      ensures chunk == [] <==> old(stream) == []
      ensures written == old(written)
    {
      if stream == [] {
        chunk := [];
      } else {
        var n: nat :| 1 <= n <= most && n <= |stream|;
        chunk := stream[..n];
        stream := stream[n..];
      }
    }

    method SendAll(bytes: seq<Byte>)
      modifies this
      ensures written == old(written) + bytes && stream == old(stream)
    {
      written := written + bytes;
    }
  }

  method SendMsg(sock: Socket, payload: seq<Byte>) returns (ok: bool)
    modifies sock
    ensures ok <==> |payload| < LIMIT
    ensures sock.written == old(sock.written) + (if |payload| < LIMIT then Frame(payload) else [])
      && sock.stream == old(sock.stream)
  {
    ok := |payload| < LIMIT;
    if ok {
      sock.SendAll(Header(|payload|) + payload);
    } else {
      assert sock.written + [] == sock.written;
    }
  }

  /** Loop until n bytes are there; None when the peer closes first. */
  method RecvExact(sock: Socket, n: nat) returns (r: Option<seq<Byte>>)
    modifies sock
    ensures sock.written == old(sock.written)
    ensures |old(sock.stream)| >= n ==> r == Some(old(sock.stream)[..n]) && sock.stream == old(sock.stream)[n..]
    ensures |old(sock.stream)| < n ==> r == None && sock.stream == []
  {
    var chunks: seq<Byte>, remaining: nat := [], n;
    while remaining > 0
      invariant chunks + sock.stream == old(sock.stream) && |chunks| + remaining == n
      invariant sock.written == old(sock.written)
    {
      var chunk := sock.Recv(remaining);
      if chunk == [] {
        return None;
      }
      chunks := chunks + chunk;
      remaining := remaining - |chunk|;
    }
    assert old(sock.stream)[..n] == chunks && old(sock.stream)[n..] == sock.stream;
    return Some(chunks);
  }

  method RecvMsg(sock: Socket) returns (r: Option<seq<Byte>>)
    modifies sock
    ensures sock.written == old(sock.written)
    ensures match Parse(old(sock.stream))
      case None => r == None
      case Some((payload, rest)) => r == Some(payload) && sock.stream == rest
  {
    var header := RecvExact(sock, 4);
    if header.None? {
      return None;
    }
    ghost var before := old(sock.stream);
    var n := Length(header.value);
    r := RecvExact(sock, n);
    if n <= |before| - 4 {
      assert before[4..][..n] == before[4..4 + n] && before[4..][n..] == before[4 + n..];
    }
  }

  /** However the stream is cut up, receiving as many messages as were sent returns exactly those, in order. */
  method RecvAll(sock: Socket, count: nat, ghost payloads: seq<seq<Byte>>,
                 ghost rest: seq<Byte>) returns (msgs: seq<seq<Byte>>)
    requires forall p :: p in payloads ==> |p| < LIMIT
    requires sock.stream == FrameAll(payloads) + rest && count == |payloads|
    modifies sock
    ensures msgs == payloads && sock.stream == rest
  {
    msgs := [];
    while |msgs| < count
      invariant |msgs| <= count && msgs == payloads[..|msgs|]
      invariant sock.stream == FrameAll(payloads[|msgs|..]) + rest
    {
      ghost var left := payloads[|msgs|..];
      FrameFirst(left, rest);
      ParseFrame(left[0], FrameAll(left[1..]) + rest);
      var msg := RecvMsg(sock);
      msgs := msgs + [msg.value];
    }
    assert FrameAll([]) + rest == rest;
  }
}
