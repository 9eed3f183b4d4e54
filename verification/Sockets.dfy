/**
 Byte streams as the kernel hands them out: system calls that may be interrupted, fail, or
 move less than was asked for.
 */
module Sockets {

  type Byte = b: int | 0 <= b < 256

  /** What the next `read` or `write` does: it is interrupted, it fails, or it moves at most
      `n` bytes.  A write may move none; a read moves none only at the end of the stream. */
  datatype Outcome = Interrupted | Fails | Moves(n: nat)

  function Min(a: int, b: int): int { if a <= b then a else b }

  /** The pieces of a stream put back together. */
  function Joined(chunks: seq<seq<Byte>>): seq<Byte> {
    if chunks == [] then [] else chunks[0] + Joined(chunks[1..])
  }

  /** One direction of a connection.  `wire` is written and not yet read, and ends where the
      peer closes; `script` is what the coming system calls do, after which each of them moves
      all it can, so every call that returns at all is covered by some script. */
  class Channel {
    var wire: seq<Byte>
    var script: seq<Outcome>

    constructor (pending: seq<Byte>, plan: seq<Outcome>)
      ensures wire == pending && script == plan
    {
      wire, script := pending, plan;
    }

    method NextOutcome(limit: nat) returns (next: Outcome)
      modifies this`script
      ensures next == if old(script) == [] then Moves(limit) else old(script)[0]
      ensures script == if old(script) == [] then [] else old(script)[1..]
    {
      if script == [] {
        return Moves(limit);
      }
      next, script := script[0], script[1..];
    }

    /** `read`: a negative count is an error, `interrupted` tells whether it is EINTR. */
    method Read(buf: array<Byte>, offset: nat, limit: nat) returns (count: int, interrupted: bool)
      requires 0 < limit && offset + limit <= buf.Length
      modifies this, buf
      ensures script == if old(script) == [] then [] else old(script)[1..]
      ensures count < 0 ==> old(script) != [] &&
                            old(script)[0] == (if interrupted then Interrupted else Fails)
      ensures count < 0 ==> wire == old(wire) && unchanged(buf)
      ensures count >= 0 ==> count <= limit && count <= |old(wire)| && (count == 0 <==> old(wire) == [])
      ensures count >= 0 && old(script) == [] ==> count == Min(limit, |old(wire)|)
      ensures count >= 0 ==> wire == old(wire)[count..]
      ensures count >= 0 ==> forall i | 0 <= i < buf.Length ::
                buf[i] == if offset <= i < offset + count then old(wire)[i - offset] else old(buf[i])
    {
      var next := NextOutcome(limit);
      match next {
        case Interrupted => return -1, true;
        case Fails => return -1, false;
        case Moves(n) =>
          var most := Min(limit, |wire|);
          count := Min(most, if n == 0 then 1 else n);
          var moved := wire[..count];
          forall i | offset <= i < offset + count {
            buf[i] := moved[i - offset];
          }
          wire := wire[count..];
          interrupted := false;
      }
    }

    method Write(data: seq<Byte>) returns (count: int, interrupted: bool)
      requires data != []
      modifies this
      ensures script == if old(script) == [] then [] else old(script)[1..]
      ensures count < 0 ==> old(script) != [] &&
                            old(script)[0] == (if interrupted then Interrupted else Fails)
      ensures count < 0 ==> wire == old(wire)
      ensures count >= 0 ==> count <= |data| && wire == old(wire) + data[..count]
      ensures count >= 0 && old(script) == [] ==> count == |data|
    {
      var next := NextOutcome(|data|);
      match next {
        case Interrupted => return -1, true;
        case Fails => return -1, false;
        case Moves(n) =>
          count, interrupted := Min(n, |data|), false;
          wire := wire + data[..count];
      }
    }
  }
}
