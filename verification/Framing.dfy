/**
 Length-prefixed messages over a byte stream (socketutil.c): a four-byte length in network
 order, then the body, moved by `writen` and `readn` through system calls that may be
 interrupted, fail, or transfer less than was asked for.
 */
module Framing {

  import opened Sockets

  const MAX_INT := 0x7fff_ffff
  const UINT_RANGE := 0x1_0000_0000
  const SIZE_RANGE := 0x1_0000_0000_0000_0000

  const SCK_OK := 0
  const SCK_ERR_PARAM := 3001
  const SCK_ERR_PEER_CLOSED := 3003
  const SCK_ERR_MALLOC := 3004

  /** The longest body whose frame length still fits an int. */
  const MAX_BODY := MAX_INT - 4

  // ---------------------------------------------------------------- the length field

  /** `htonl`: most significant byte first. */
  function ToNetwork(n: nat): (bytes: seq<Byte>)
    requires n < UINT_RANGE
    ensures |bytes| == 4
  {
    [n / 0x100_0000, n / 0x1_0000 % 0x100, n / 0x100 % 0x100, n % 0x100]
  }

  /** `ntohl`. */
  function FromNetwork(bytes: seq<Byte>): (n: nat)
    requires |bytes| == 4
    ensures n < UINT_RANGE
  {
    ((bytes[0] as int * 0x100 + bytes[1]) * 0x100 + bytes[2]) * 0x100 + bytes[3]
  }

  /** An unsigned value stored in an `int`. */
  function AsInt(n: nat): int
    requires n < UINT_RANGE
  {
    if n <= MAX_INT then n else n - UINT_RANGE
  }

  lemma LengthRoundTrip(n: nat)
    requires n < UINT_RANGE
    ensures FromNetwork(ToNetwork(n)) == n
  {
    assert n / 0x1_0000 == n / 0x100 / 0x100;
    assert n / 0x100_0000 == n / 0x1_0000 / 0x100;
  }

  lemma BytesRoundTrip(bytes: seq<Byte>)
    requires |bytes| == 4
    ensures ToNetwork(FromNetwork(bytes)) == bytes
  {
    var two := bytes[0] as int * 0x100 + bytes[1];
    var three := two * 0x100 + bytes[2];
    var n := three * 0x100 + bytes[3];
    LastByte(bytes[0], bytes[1]);
    LastByte(two, bytes[2]);
    LastByte(three, bytes[3]);
    assert n / 0x1_0000 == n / 0x100 / 0x100;
    assert n / 0x100_0000 == n / 0x1_0000 / 0x100;
  }

  lemma LastByte(high: nat, low: Byte)
    ensures (high * 0x100 + low) / 0x100 == high && (high * 0x100 + low) % 0x100 == low
  {
  }

  /** Lexicographic order: the first byte that differs decides. */
  predicate Before(x: seq<Byte>, y: seq<Byte>)
    requires |x| == |y|
  {
    x != [] && (x[0] < y[0] || (x[0] == y[0] && Before(x[1..], y[1..])))
  }

  lemma BeforeByByte(x: seq<Byte>, y: seq<Byte>)
    requires |x| == |y| == 4
    ensures Before(x, y) <==>
              || x[0] < y[0]
              || (x[0] == y[0] && x[1] < y[1])
              || (x[0] == y[0] && x[1] == y[1] && x[2] < y[2])
              || (x[0] == y[0] && x[1] == y[1] && x[2] == y[2] && x[3] < y[3])
  {
    assert x[1..][1..] == x[2..] && x[2..][1..] == x[3..] && x[3..][1..] == [];
    assert y[1..][1..] == y[2..] && y[2..][1..] == y[3..] && y[3..][1..] == [];
    assert Before(x[3..], y[3..]) <==> x[3] < y[3];
    assert Before(x[2..], y[2..]) <==> x[2] < y[2] || (x[2] == y[2] && Before(x[3..], y[3..]));
    assert Before(x[1..], y[1..]) <==> x[1] < y[1] || (x[1] == y[1] && Before(x[2..], y[2..]));
  }

  /** The length field is in network order: the most significant byte comes first, so numbers
      are ordered as their bytes are. */
  lemma NetworkOrder(a: nat, b: nat)
    requires a < UINT_RANGE && b < UINT_RANGE
    ensures a < b <==> Before(ToNetwork(a), ToNetwork(b))
  {
    LengthRoundTrip(a);
    LengthRoundTrip(b);
    BeforeByByte(ToNetwork(a), ToNetwork(b));
  }

  // ---------------------------------------------------------------- streams of frames

  function Frame(body: seq<Byte>): seq<Byte>
    requires |body| < UINT_RANGE
  {
    ToNetwork(|body|) + body
  }

  predicate Sendable(messages: seq<seq<Byte>>) {
    forall i | 0 <= i < |messages| :: |messages[i]| <= MAX_BODY
  }

  function Frames(messages: seq<seq<Byte>>): seq<Byte>
    requires Sendable(messages)
  {
    if messages == [] then [] else Frame(messages[0]) + Frames(messages[1..])
  }

  /** How a receive ends; `Overrun` is a write outside the buffer it allocated. */
  datatype Received = Message(body: seq<Byte>, rest: seq<Byte>) | PeerClosed | NoMemory | Overrun

  /** What one receive makes of a stream that ends after `wire`. */
  function ReceiveOne(wire: seq<Byte>): Received {
    if |wire| < 4 then PeerClosed
    else
      var n := AsInt(FromNetwork(wire[..4]));
      if n == -1 then Overrun
      else if n < 0 || n == MAX_INT then NoMemory
      else if |wire| - 4 < n then PeerClosed
      else Message(wire[4..4 + n], wire[4 + n..])
  }

  /** Receives repeated until one of them does not return a message. */
  function ReceiveAll(wire: seq<Byte>): (seq<seq<Byte>>, Received)
    decreases |wire|
  {
    match ReceiveOne(wire)
    case Message(body, rest) =>
      var (more, last) := ReceiveAll(rest);
      ([body] + more, last)
    case stop => ([], stop)
  }

  // ---------------------------------------------------------------- inside the buffer

  /** An `int` passed where a `size_t` is expected. */
  function AsSize(n: int): nat
    requires -UINT_RANGE <= n <= MAX_INT
  {
    if n < 0 then n + SIZE_RANGE else n
  }

  /** The size `malloc(n + 1)` is asked for; the sum is an `int` and wraps. */
  function BufferSize(n: int): nat
    requires -MAX_INT - 1 <= n <= MAX_INT
  {
    AsSize(if n == MAX_INT then -MAX_INT - 1 else n + 1)
  }

  /** An allocation succeeds unless its size is a negative `int` in disguise. */
  predicate Allocates(size: nat) {
    size <= MAX_INT
  }

  /** A receive writes index `i` of its buffer: a byte that `readn` stores or, unless the
      receive then sees fewer bytes than it asked for, the terminator. */
  predicate Writes(wire: seq<Byte>, i: int) {
    |wire| >= 4 &&
    var n := AsInt(FromNetwork(wire[..4]));
    var count := Min(AsSize(n), |wire| - 4);
    var ret := AsInt(count % UINT_RANGE);
    && Allocates(BufferSize(n))
    && (0 <= i < count || (ret != -1 && ret >= n && i == n))
  }

  ghost predicate StaysInside(wire: seq<Byte>) {
    forall i | Writes(wire, i) :: 0 <= i < BufferSize(AsInt(FromNetwork(wire[..4])))
  }

  /** The exact condition under which a receive keeps to its buffer: one length field breaks
      it, whatever follows.  `ReceiveOne` reports an overrun in exactly those cases. */
  lemma ReceiveStaysInside(wire: seq<Byte>)
    ensures StaysInside(wire) <==> |wire| < 4 || FromNetwork(wire[..4]) != UINT_RANGE - 1
    ensures StaysInside(wire) <==> ReceiveOne(wire) != Overrun
  {
    if |wire| >= 4 && FromNetwork(wire[..4]) == UINT_RANGE - 1 {
      assert Writes(wire, if |wire| == 4 then -1 else 0);
    }
  }

  /** The four bytes that break it. */
  lemma LongestLengthOverruns(rest: seq<Byte>)
    ensures ReceiveOne([255, 255, 255, 255] + rest) == Overrun
    ensures !StaysInside([255, 255, 255, 255] + rest)
  {
    var wire := [255, 255, 255, 255] + rest;
    assert wire[..4] == [255, 255, 255, 255];
    ReceiveStaysInside(wire);
  }

  /** No frame that a sender can produce breaks it, whole or cut short, whatever follows. */
  lemma FrameStaysInside(body: seq<Byte>, wire: seq<Byte>)
    requires |body| <= MAX_BODY && (Frame(body) <= wire || wire <= Frame(body))
    ensures StaysInside(wire)
  {
    if |wire| >= 4 {
      LengthRoundTrip(|body|);
      assert wire[..4] == Frame(body)[..4] == ToNetwork(|body|);
    }
    ReceiveStaysInside(wire);
  }

  // ---------------------------------------------------------------- round trips

  lemma ReceiveFrame(body: seq<Byte>, rest: seq<Byte>)
    requires |body| < MAX_INT
    ensures ReceiveOne(Frame(body) + rest) == Message(body, rest)
  {
    var wire := Frame(body) + rest;
    LengthRoundTrip(|body|);
    assert wire[..4] == ToNetwork(|body|);
    assert wire[4..4 + |body|] == body;
    assert wire[4 + |body|..] == rest;
  }

  /** A receive delivers a message exactly when the stream starts with its frame. */
  lemma MessageExactly(wire: seq<Byte>, body: seq<Byte>, rest: seq<Byte>)
    ensures ReceiveOne(wire) == Message(body, rest) <==> |body| < MAX_INT && wire == Frame(body) + rest
  {
    if ReceiveOne(wire) == Message(body, rest) {
      BytesRoundTrip(wire[..4]);
      assert wire == wire[..4] + wire[4..4 + |body|] + wire[4 + |body|..];
    } else if |body| < MAX_INT && wire == Frame(body) + rest {
      ReceiveFrame(body, rest);
    }
  }

  /** How a receive ends, by the unsigned length field and the bytes there are. */
  lemma ReceiveByLength(wire: seq<Byte>)
    requires |wire| >= 4
    ensures var length := FromNetwork(wire[..4]);
            && (ReceiveOne(wire).Message? <==> length < 0x7fff_ffff && length <= |wire| - 4)
            && (ReceiveOne(wire) == PeerClosed <==> |wire| - 4 < length < 0x7fff_ffff)
            && (ReceiveOne(wire) == NoMemory <==> 0x7fff_ffff <= length < 0xffff_ffff)
            && (ReceiveOne(wire) == Overrun <==> length == 0xffff_ffff)
  {
  }

  lemma ReceiveAllFrame(body: seq<Byte>, rest: seq<Byte>)
    requires |body| <= MAX_BODY
    ensures ReceiveAll(Frame(body) + rest) == ([body] + ReceiveAll(rest).0, ReceiveAll(rest).1)
  {
    ReceiveFrame(body, rest);
  }

  /** A frame that is cut short is never delivered, in whole or in part. */
  lemma ReceiveCutFrame(body: seq<Byte>, wire: seq<Byte>)
    requires |body| <= MAX_BODY && wire < Frame(body)
    ensures ReceiveOne(wire) == PeerClosed
  {
    LengthRoundTrip(|body|);
    if |wire| >= 4 {
      assert wire[..4] == Frame(body)[..4] == ToNetwork(|body|);
    }
  }

  /** Framing round trip on values: parsing what was sent gives back the messages, in order,
      and leaves the stream on a frame boundary. */
  lemma {:induction false} FramesRoundTrip(messages: seq<seq<Byte>>)
    requires Sendable(messages)
    ensures ReceiveAll(Frames(messages)) == (messages, PeerClosed)
  {
    if messages != [] {
      ReceiveAllFrame(messages[0], Frames(messages[1..]));
      FramesRoundTrip(messages[1..]);
      assert [messages[0]] + messages[1..] == messages;
    }
  }

  /** Equal byte streams come from equal message lists. */
  lemma FramesInjective(a: seq<seq<Byte>>, b: seq<seq<Byte>>)
    requires Sendable(a) && Sendable(b) && Frames(a) == Frames(b)
    ensures a == b
  {
    FramesRoundTrip(a);
    FramesRoundTrip(b);
  }

  /** How many frames fit into the first `length` bytes. */
  function WholeFrames(messages: seq<seq<Byte>>, length: nat): (whole: nat)
    requires Sendable(messages)
    ensures whole <= |messages|
  {
    if messages == [] || length < |Frame(messages[0])| then 0
    else 1 + WholeFrames(messages[1..], length - |Frame(messages[0])|)
  }

  lemma {:induction false} WholeFramesIsExact(messages: seq<seq<Byte>>, length: nat)
    requires Sendable(messages)
    ensures var whole := WholeFrames(messages, length);
            && |Frames(messages[..whole])| <= length
            && (whole < |messages| ==> length < |Frames(messages[..whole + 1])|)
  {
    if messages == [] {
    } else if length < |Frame(messages[0])| {
      FramesFirst(messages, 1);
    } else {
      var whole := WholeFrames(messages, length);
      WholeFramesIsExact(messages[1..], length - |Frame(messages[0])|);
      FramesFirst(messages, whole);
      if whole < |messages| {
        FramesFirst(messages, whole + 1);
      }
    }
  }

  /** Truncated streams: whatever prefix of the frames arrives before the peer closes, the
      receives return exactly the whole frames in it and then report the close. */
  lemma {:induction false} TruncatedStream(messages: seq<seq<Byte>>, wire: seq<Byte>)
    requires Sendable(messages) && wire <= Frames(messages)
    ensures ReceiveAll(wire) == (messages[..WholeFrames(messages, |wire|)], PeerClosed)
  {
    if messages != [] {
      var first, later := Frame(messages[0]), Frames(messages[1..]);
      if |wire| < |first| {
        CutInFirst(first, later, wire);
        ReceiveCutFrame(messages[0], wire);
      } else {
        CutLater(first, later, wire);
        TruncatedStream(messages[1..], wire[|first|..]);
        OneMoreFrame(messages, wire[|first|..]);
      }
    }
  }

  /** The step of `TruncatedStream`: a whole frame before a stream that meets it. */
  lemma OneMoreFrame(messages: seq<seq<Byte>>, rest: seq<Byte>)
    requires messages != [] && Sendable(messages)
    requires ReceiveAll(rest) == (messages[1..][..WholeFrames(messages[1..], |rest|)], PeerClosed)
    ensures var wire := Frame(messages[0]) + rest;
            ReceiveAll(wire) == (messages[..WholeFrames(messages, |wire|)], PeerClosed)
  {
    ReceiveAllFrame(messages[0], rest);
    var more := WholeFrames(messages[1..], |rest|);
    FirstMessages(messages, more);
  }

  lemma FirstMessages(messages: seq<seq<Byte>>, more: nat)
    requires more < |messages|
    ensures messages[..more + 1] == [messages[0]] + messages[1..][..more]
  {
  }

  lemma CutInFirst(first: seq<Byte>, later: seq<Byte>, wire: seq<Byte>)
    requires wire <= first + later && |wire| < |first|
    ensures wire < first
  {
    assert wire == (first + later)[..|wire|] == first[..|wire|];
  }

  lemma CutLater(first: seq<Byte>, later: seq<Byte>, wire: seq<Byte>)
    requires wire <= first + later && |first| <= |wire|
    ensures wire == first + wire[|first|..] && wire[|first|..] <= later
  {
    var rest := wire[|first|..];
    assert wire == (first + later)[..|wire|];
    assert wire[..|first|] == first;
    assert rest == (first + later)[|first|..|wire|] == later[..|rest|];
  }

  lemma FramesFirst(messages: seq<seq<Byte>>, k: nat)
    requires Sendable(messages) && 0 < k <= |messages|
    ensures Sendable(messages[..k]) && Sendable(messages[1..][..k - 1])
    ensures Frames(messages[..k]) == Frame(messages[0]) + Frames(messages[1..][..k - 1])
  {
    assert messages[..k][1..] == messages[1..][..k - 1];
  }

  // -------------------------------------------------------------- readn and writen

  /** Under every script `readn` returns all that was asked for or all there is, and fails
      only if a system call does. */
  method Readn(channel: Channel, buf: array<Byte>, count: nat) returns (ret: int)
    requires count <= buf.Length
    modifies channel, buf
    ensures Fails !in old(channel.script) ==> ret >= 0 && Fails !in channel.script
    ensures ret >= 0 ==>
              && ret == Min(count, |old(channel.wire)|)
              && channel.wire == old(channel.wire)[ret..]
              && forall i | 0 <= i < buf.Length ::
                   buf[i] == if i < ret then old(channel.wire)[i] else old(buf[i])
    ensures ret < 0 ==> ret == -1 && Fails in old(channel.script)
  {
    var nleft, done := count, 0;
    while nleft > 0
      invariant done + nleft == count && 0 <= nleft && 0 <= done
      invariant done <= |old(channel.wire)| && channel.wire == old(channel.wire)[done..]
      invariant forall i | 0 <= i < buf.Length ::
                  buf[i] == if i < done then old(channel.wire)[i] else old(buf[i])
      invariant forall o | o in channel.script :: o in old(channel.script)
      decreases |channel.script|, nleft
    {
      ghost var before := channel.script;
      var nread, interrupted := channel.Read(buf, done, nleft);
      assert forall o | o in channel.script :: o in before;
      if nread < 0 {
        if interrupted {
          continue;
        }
        assert before[0] in before;
        return -1;
      } else if nread == 0 {
        return count - nleft;
      }
      done := done + nread;
      nleft := nleft - nread;
    }
    ret := count;
  }

  /** `writen` appends exactly its buffer, or fails having appended part of it. */
  method Writen(channel: Channel, data: seq<Byte>) returns (ret: int)
    modifies channel
    ensures Fails !in old(channel.script) ==> ret >= 0 && Fails !in channel.script
    ensures ret >= 0 ==> ret == |data| && channel.wire == old(channel.wire) + data
    ensures ret < 0 ==> ret == -1 && Fails in old(channel.script)
    ensures ret < 0 ==> old(channel.wire) <= channel.wire <= old(channel.wire) + data
  {
    var done := 0;
    while done < |data|
      invariant 0 <= done <= |data|
      invariant channel.wire == old(channel.wire) + data[..done]
      invariant forall o | o in channel.script :: o in old(channel.script)
      decreases |channel.script|, |data| - done
    {
      ghost var before := channel.script;
      var nwritten, interrupted := channel.Write(data[done..]);
      assert forall o | o in channel.script :: o in before;
      if nwritten < 0 {
        if interrupted {
          continue;
        }
        assert before[0] in before;
        return -1;
      } else if nwritten == 0 {
        continue;
      }
      assert data[..done] + data[done..][..nwritten] == data[..done + nwritten];
      done := done + nwritten;
    }
    assert data[..done] == data;
    ret := |data|;
  }

  // -------------------------------------------------------------- messages

  /** `sckClient_send` and `sckServer_send`; only the client rejects an empty message.  The
      frame length is an `int`, so for a longer body it wraps and the allocation fails. */
  method Send(channel: Channel, isClient: bool, data: seq<Byte>) returns (ret: int)
    requires |data| <= MAX_INT
    modifies channel
    ensures isClient && data == [] ==> ret == SCK_ERR_PARAM
    ensures |data| > MAX_BODY ==> ret == SCK_ERR_MALLOC
    ensures ret == SCK_ERR_PARAM || ret == SCK_ERR_MALLOC ==> unchanged(channel)
    ensures Fails !in old(channel.script) ==> Fails !in channel.script
    ensures Fails !in old(channel.script) && |data| <= MAX_BODY && !(isClient && data == []) ==> ret == SCK_OK
    ensures ret == SCK_OK ==> |data| <= MAX_BODY && channel.wire == old(channel.wire) + Frame(data)
    ensures ret == -1 ==> |data| <= MAX_BODY && old(channel.wire) <= channel.wire <= old(channel.wire) + Frame(data)
    ensures ret in {SCK_OK, SCK_ERR_PARAM, SCK_ERR_MALLOC, -1}
  {
    if isClient && |data| <= 0 {
      return SCK_ERR_PARAM;
    }
    if |data| + 4 > MAX_INT {
      return SCK_ERR_MALLOC;
    }
    var netdata := new Byte[|data| + 4];
    var netlen := ToNetwork(|data|);
    forall i | 0 <= i < 4 {
      netdata[i] := netlen[i];
    }
    forall i | 0 <= i < |data| {
      netdata[4 + i] := data[i];
    }
    assert netdata[..] == Frame(data);
    var writed := Writen(channel, netdata[..]);
    if writed < |data| + 4 {
      return writed;
    }
    ret := SCK_OK;
  }

  /** `sckClient_rev` and `sckServer_rev`: whatever the script, the result is what
      `ReceiveOne` makes of the stream, unless a system call fails.  A call that is about to
      read past its buffer stops with `overran`, since nothing is known of what follows. */
  method Receive(channel: Channel) returns (ret: int, out: seq<Byte>, overran: bool)
    modifies channel
    ensures Fails !in old(channel.script) ==> ret != -1 && Fails !in channel.script
    ensures ret != -1 ==>
              match ReceiveOne(old(channel.wire))
              case Message(body, rest) => !overran && ret == SCK_OK && out == body && channel.wire == rest
              case PeerClosed => !overran && ret == SCK_ERR_PEER_CLOSED && channel.wire == []
              case NoMemory => !overran && ret == SCK_ERR_MALLOC && channel.wire == old(channel.wire)[4..]
              case Overrun => overran && channel.wire == old(channel.wire)[4..]
  {
    out, overran := [], false;
    var header := new Byte[4];
    ret := Readn(channel, header, 4);
    if ret == -1 {
      return;
    } else if ret < 4 {
      ret := SCK_ERR_PEER_CLOSED;
      return;
    }
    assert header[..] == old(channel.wire)[..4];
    var n := AsInt(FromNetwork(header[..]));
    if !Allocates(BufferSize(n)) {
      ret := SCK_ERR_MALLOC;
      return;
    }
    var body := new Byte[BufferSize(n)];
    if AsSize(n) > body.Length {
      overran := true;
      return;
    }
    ret := Readn(channel, body, n);
    if ret == -1 {
      return;
    } else if ret < n {
      ret := SCK_ERR_PEER_CLOSED;
      return;
    }
    body[n] := 0;
    out := body[..n];
    ret := SCK_OK;
  }

  /** Receiving until no message comes back: under every script without a failing call this is
      `ReceiveAll`, and a stream of frames cut anywhere yields its whole frames. */
  method ReceiveUntilStop(channel: Channel) returns (got: seq<seq<Byte>>, stop: Received)
    requires Fails !in channel.script
    modifies channel
    ensures (got, stop) == ReceiveAll(old(channel.wire))
    ensures forall messages | Sendable(messages) && old(channel.wire) <= Frames(messages) ::
              got == messages[..WholeFrames(messages, |old(channel.wire)|)] && stop == PeerClosed
  {
    got := [];
    while true
      invariant Fails !in channel.script
      invariant ReceiveAll(old(channel.wire)).0 == got + ReceiveAll(channel.wire).0
      invariant ReceiveAll(old(channel.wire)).1 == ReceiveAll(channel.wire).1
      decreases |channel.wire|
    {
      ghost var before, wire := got, channel.wire;
      var ret, out, overran := Receive(channel);
      if overran || ret != SCK_OK {
        stop := if overran then Overrun else if ret == SCK_ERR_MALLOC then NoMemory else PeerClosed;
        assert ReceiveAll(wire) == ([], stop);
        assert got + [] == got;
        break;
      }
      got := got + [out];
      MoveFirst(before, out, ReceiveAll(channel.wire).0);
    }
    forall messages | Sendable(messages) && old(channel.wire) <= Frames(messages)
      ensures got == messages[..WholeFrames(messages, |old(channel.wire)|)] && stop == PeerClosed
    {
      TruncatedStream(messages, old(channel.wire));
    }
  }

  lemma MoveFirst(got: seq<seq<Byte>>, next: seq<Byte>, later: seq<seq<Byte>>)
    ensures got + ([next] + later) == (got + [next]) + later
  {
  }

  /** Sending `messages` and then receiving as many times: for every script without a failing
      call the same messages come back in order and nothing is left on the wire. */
  method Exchange(channel: Channel, isClient: bool, messages: seq<seq<Byte>>) returns (got: seq<seq<Byte>>)
    requires Sendable(messages) && Fails !in channel.script && channel.wire == []
    requires isClient ==> forall i | 0 <= i < |messages| :: messages[i] != []
    modifies channel
    ensures got == messages && channel.wire == []
  {
    for i := 0 to |messages|
      invariant Fails !in channel.script
      invariant Sendable(messages[..i]) && channel.wire == Frames(messages[..i])
    {
      var ret := Send(channel, isClient, messages[i]);
      FramesAppend(messages[..i], messages[i]);
      assert messages[..i] + [messages[i]] == messages[..i + 1];
    }
    assert messages[..|messages|] == messages;
    got := [];
    for i := 0 to |messages|
      invariant Fails !in channel.script
      invariant got == messages[..i]
      invariant Sendable(messages[i..]) && channel.wire == Frames(messages[i..])
    {
      ReceiveFrame(messages[i], Frames(messages[i + 1..]));
      assert messages[i..][1..] == messages[i + 1..];
      var ret, out, overran := Receive(channel);
      got := got + [out];
    }
  }

  lemma {:induction false} FramesAppend(messages: seq<seq<Byte>>, last: seq<Byte>)
    requires Sendable(messages) && |last| <= MAX_BODY
    ensures Sendable(messages + [last]) && Frames(messages + [last]) == Frames(messages) + Frame(last)
  {
    if messages == [] {
      assert [last][1..] == [];
      assert [] + [last] == [last];
    } else {
      FramesAppend(messages[1..], last);
      assert (messages + [last])[1..] == messages[1..] + [last];
    }
  }
}
