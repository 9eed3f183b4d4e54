/**
 The buffered line reader (wrap.c): `Readline` takes its bytes one at a time from `my_read`,
 which keeps up to 100 of them in a static buffer between calls.
 */
module LineReader {
  import opened Sockets

  const NEWLINE: Byte := 10
  const CACHE_SIZE := 100

  // ---------------------------------------------------------------- unbuffered lines

  /** The next line of a stream, cut after `room` bytes. */
  function NextLine(stream: seq<Byte>, room: nat): (line: seq<Byte>)
    ensures |line| <= room && line <= stream
  {
    if stream == [] || room == 0 then []
    else if stream[0] == NEWLINE then [NEWLINE]
    else
      var later := NextLine(stream[1..], room - 1);
      assert stream == [stream[0]] + stream[1..];
      [stream[0]] + later
  }

  predicate EndsLine(line: seq<Byte>) {
    line != [] && line[|line| - 1] == NEWLINE
  }

  /** What `Readline` returns for a line. */
  function Returned(line: seq<Byte>, maxlen: nat): nat {
    if |line| + 1 == maxlen && !EndsLine(line) then |line| + 1 else |line|
  }

  /** A size of zero is treated like one: the terminator is always written. */
  function SizeUsed(maxlen: nat): nat {
    if maxlen == 0 then 1 else maxlen
  }

  /** What makes a prefix of the stream its next line. */
  ghost predicate IsNextLine(line: seq<Byte>, stream: seq<Byte>, room: nat) {
    && line <= stream
    && |line| <= room
    && (forall i | 0 <= i < |line| - 1 :: line[i] != NEWLINE)
    && (EndsLine(line) || |line| == room || line == stream)
  }

  lemma StopsOneLater(later: seq<Byte>, stream: seq<Byte>, room: nat)
    requires stream != [] && room > 0 && stream[0] != NEWLINE
    requires IsNextLine(later, stream[1..], room - 1)
    ensures IsNextLine([stream[0]] + later, stream, room)
  {
    var line := [stream[0]] + later;
    assert stream == [stream[0]] + stream[1..];
    assert forall i | 1 <= i < |line| :: line[i] == later[i - 1];
  }

  lemma {:induction false} NextLineStops(stream: seq<Byte>, room: nat)
    ensures IsNextLine(NextLine(stream, room), stream, room)
  {
    if stream != [] && room != 0 && stream[0] != NEWLINE {
      var later := NextLine(stream[1..], room - 1);
      NextLineStops(stream[1..], room - 1);
      StopsOneLater(later, stream, room);
    }
  }

  /** `NextLine` is the one prefix that stops at the first newline, the limit or the end. */
  lemma NextLineIsUnique(line: seq<Byte>, stream: seq<Byte>, room: nat)
    requires IsNextLine(line, stream, room)
    ensures line == NextLine(stream, room)
  {
    NextLineStops(stream, room);
    var next := NextLine(stream, room);
    assert |line| == |next| by {
      assert 0 < |line| <= |next| ==> line[|line| - 1] == next[|line| - 1];
      assert 0 < |next| <= |line| ==> line[|next| - 1] == next[|next| - 1];
    }
  }

  /** A `Readline` that advanced from `from` to `to` delivered the next line of the stream. */
  ghost predicate IsLineRead(stream: seq<Byte>, from: nat, to: nat, maxlen: nat, ret: int) {
    && from <= to <= |stream| && maxlen > 0
    && stream[from..to] == NextLine(stream[from..], maxlen - 1)
    && ret == Returned(stream[from..to], maxlen)
  }

  /** A line that stopped at a newline, the limit or the end of the stream is the next one. */
  lemma LineIsComplete(stream: seq<Byte>, from: nat, to: nat, maxlen: nat, ret: int)
    requires from <= to <= |stream| && to - from < maxlen
    requires forall i | from <= i < to - 1 :: stream[i] != NEWLINE
    requires (from < to && stream[to - 1] == NEWLINE) || to - from == maxlen - 1 || to == |stream|
    requires ret == to - from +
                    if to - from == maxlen - 1 && !(from < to && stream[to - 1] == NEWLINE) then 1 else 0
    ensures IsLineRead(stream, from, to, maxlen, ret)
  {
    NextLineIsUnique(stream[from..to], stream[from..], maxlen - 1);
  }

  /** The stream as repeated line reads see it. */
  function Lines(stream: seq<Byte>, room: nat): seq<seq<Byte>>
    requires room > 0
    decreases |stream|
  {
    if stream == [] then []
    else
      var line := NextLine(stream, room);
      [line] + Lines(stream[|line|..], room)
  }

  /** Splitting loses and invents nothing. */
  lemma {:induction false} LinesJoin(stream: seq<Byte>, room: nat)
    requires room > 0
    ensures Joined(Lines(stream, room)) == stream
    decreases |stream|
  {
    if stream != [] {
      var line := NextLine(stream, room);
      LinesJoin(stream[|line|..], room);
      assert stream == line + stream[|line|..];
    }
  }

  // ---------------------------------------------------------------- the cache

  /** The static variables of `my_read` together with the descriptor it reads.  `stream` is all
      the descriptor ever delivers and `pos` how much of it the callers have been given. */
  class Reader {
    const channel: Channel
    const readBuf: array<Byte>
    var readCnt: int
    var readPtr: int
    ghost const stream: seq<Byte>
    ghost var pos: nat

    /** Cached bytes followed by bytes still in the kernel form the unread suffix. */
    ghost predicate Valid()
      reads this, readBuf, channel
    {
      var cached := if readCnt > 0 then readCnt else 0;
      && readBuf.Length == CACHE_SIZE
      && pos + cached <= |stream|
      && (readCnt > 0 ==> 0 <= readPtr && readPtr + readCnt <= CACHE_SIZE)
      && (forall k | readPtr <= k < readPtr + cached :: readBuf[k] == stream[pos + (k - readPtr)])
      && channel.wire == stream[pos + cached..]
    }

    constructor (source: Channel)
      ensures Valid() && channel == source && fresh(readBuf) && stream == source.wire && pos == 0
    {
      channel := source;
      readBuf := new Byte[CACHE_SIZE];
      readCnt, readPtr := 0, 0;
      stream, pos := source.wire, 0;
    }

    /** Refill the cache; `rc` is what `my_read` returns when that is not possible. */
    method Refill() returns (rc: int)
      requires Valid() && readCnt <= 0
      modifies this`readCnt, this`readPtr, readBuf, channel
      ensures Valid()
      ensures Fails !in old(channel.script) ==> rc != -1 && Fails !in channel.script
      ensures rc == 1 ==> readCnt > 0
      ensures rc == 0 ==> pos == |stream|
      ensures rc in {-1, 0, 1}
    {
      while true
        invariant Valid() && readCnt <= 0
        invariant forall o | o in channel.script :: o in old(channel.script)
        decreases |channel.script|
      {
        ghost var before := channel.script;
        var count, interrupted := channel.Read(readBuf, 0, CACHE_SIZE);
        assert forall o | o in channel.script :: o in before;
        readCnt := count;
        if readCnt < 0 {
          assert before[0] in before;
          if interrupted {
            continue;
          }
          return -1;
        } else if readCnt == 0 {
          return 0;
        }
        readPtr := 0;
        return 1;
      }
    }

    /** One byte of the stream, end of stream, or an error that loses nothing. */
    method MyRead() returns (rc: int, c: Byte)
      requires Valid()
      modifies this, readBuf, channel
      ensures Valid()
      ensures Fails !in old(channel.script) ==> rc != -1 && Fails !in channel.script
      ensures rc in {-1, 0, 1}
      ensures rc == 1 ==> old(pos) < |stream| && c == stream[old(pos)] && pos == old(pos) + 1
      ensures rc != 1 ==> pos == old(pos)
      ensures rc == 0 ==> pos == |stream|
    {
      if readCnt <= 0 {
        rc := Refill();
        if rc != 1 {
          return rc, 0;
        }
      }
      readCnt := readCnt - 1;
      c := readBuf[readPtr];
      readPtr := readPtr + 1;
      pos := pos + 1;
      rc := 1;
    }

    /** The loop of `Readline`: it stops after a newline or when the buffer is full (`rc` is 1),
        at the end of the stream (0) or on an error (-1), with its counter `n` and the number of
        bytes it has stored. */
    method FillLine(buf: array<Byte>, maxlen: nat) returns (n: nat, stored: nat, rc: int)
      requires Valid() && SizeUsed(maxlen) <= buf.Length && buf != readBuf
      modifies this, readBuf, channel, buf
      ensures Valid() && pos == old(pos) + stored <= |stream| && stored < SizeUsed(maxlen)
      ensures Fails !in old(channel.script) ==> rc != -1 && Fails !in channel.script
      ensures forall i | 0 <= i < stored :: buf[i] == stream[old(pos) + i]
      ensures forall i | SizeUsed(maxlen) <= i < buf.Length :: buf[i] == old(buf[i])
      ensures forall i | old(pos) <= i < pos - 1 :: stream[i] != NEWLINE
      ensures rc in {-1, 0, 1}
      ensures rc == 0 ==> pos == |stream| && n - 1 == stored < SizeUsed(maxlen) - 1
      ensures rc == 1 ==> if stored > 0 && stream[pos - 1] == NEWLINE then n == stored
                          else stored == SizeUsed(maxlen) - 1 && n == stored + 1
    {
      n, stored := 1, 0;
      while n < maxlen
        invariant 1 <= n <= SizeUsed(maxlen) && stored == n - 1
        invariant Valid() && pos == old(pos) + stored
        invariant forall i | 0 <= i < stored :: buf[i] == stream[old(pos) + i]
        invariant forall i | SizeUsed(maxlen) <= i < buf.Length :: buf[i] == old(buf[i])
        invariant forall i | old(pos) <= i < pos :: stream[i] != NEWLINE
        invariant Fails !in old(channel.script) ==> Fails !in channel.script
      {
        var c;
        rc, c := MyRead();
        if rc != 1 {
          return;
        }
        buf[stored] := c;
        stored := stored + 1;
        if c == NEWLINE {
          return;
        }
        n := n + 1;
      }
      rc := 1;
    }

    /** `Readline`: the buffer receives the next line and a terminator, whatever the chunks the
        kernel delivers.  When the line fills the buffer without a newline the returned count
        is one more than the bytes stored. */
    method Readline(buf: array<Byte>, maxlen: nat) returns (ret: int)
      requires Valid() && SizeUsed(maxlen) <= buf.Length && buf != readBuf
      modifies this, readBuf, channel, buf
      ensures Valid() && old(pos) <= pos <= |stream| && pos - old(pos) < SizeUsed(maxlen)
      ensures Fails !in old(channel.script) ==> ret >= 0 && Fails !in channel.script
      ensures forall i | 0 <= i < pos - old(pos) :: buf[i] == stream[old(pos) + i]
      ensures ret >= 0 ==> buf[pos - old(pos)] == 0
      ensures ret >= 0 ==> IsLineRead(stream, old(pos), pos, SizeUsed(maxlen), ret)
      ensures forall i | SizeUsed(maxlen) <= i < buf.Length :: buf[i] == old(buf[i])
    {
      var n, stored, rc := FillLine(buf, maxlen);
      if rc == -1 {
        return -1;
      }
      ret := if rc == 0 then n - 1 else n;
      LineIsComplete(stream, old(pos), pos, SizeUsed(maxlen), ret);
      buf[stored] := 0;
    }
  }

  /** The lines from position `pos` of the stream on. */
  ghost function LinesFrom(stream: seq<Byte>, pos: nat, room: nat): seq<seq<Byte>>
    requires room > 0 && pos <= |stream|
  {
    Lines(stream[pos..], room)
  }

  lemma LinesStep(stream: seq<Byte>, from: nat, to: nat, room: nat, before: seq<seq<Byte>>)
    requires room > 0 && from < to <= |stream| && stream[from..to] == NextLine(stream[from..], room)
    ensures before + LinesFrom(stream, from, room) ==
            before + [stream[from..to]] + LinesFrom(stream, to, room)
  {
    assert stream[from..][to - from..] == stream[to..];
  }

  lemma LinesEnd(stream: seq<Byte>, pos: nat, room: nat)
    requires room > 0 && pos <= |stream| && NextLine(stream[pos..], room) == []
    ensures LinesFrom(stream, pos, room) == [] && pos == |stream|
  {
  }

  /** One `Readline` as its caller uses it: the returned count gives the stored bytes. */
  method ReadOneLine(reader: Reader, maxlen: nat) returns (line: seq<Byte>)
    requires reader.Valid() && maxlen >= 2 && Fails !in reader.channel.script
    modifies reader, reader.readBuf, reader.channel
    ensures reader.Valid() && Fails !in reader.channel.script
    ensures old(reader.pos) <= reader.pos <= |reader.stream|
    ensures line == reader.stream[old(reader.pos)..reader.pos]
    ensures line == NextLine(reader.stream[old(reader.pos)..], maxlen - 1)
  {
    var buf := new Byte[maxlen];
    var ret := reader.Readline(buf, maxlen);
    var count := Min(ret, maxlen - 1);
    assert count == reader.pos - old(reader.pos);
    line := buf[..count];
  }

  /** Reading lines until one comes back empty gives the unbuffered split of the stream, for
      every way the kernel cuts it into chunks; by `LinesJoin` nothing of it is lost. */
  method ReadAllLines(reader: Reader, maxlen: nat) returns (lines: seq<seq<Byte>>)
    requires reader.Valid() && maxlen >= 2 && Fails !in reader.channel.script
    modifies reader, reader.readBuf, reader.channel
    ensures lines == LinesFrom(reader.stream, old(reader.pos), maxlen - 1)
    ensures reader.pos == |reader.stream|
  {
    ghost var all := LinesFrom(reader.stream, reader.pos, maxlen - 1);
    lines := [];
    while true
      invariant reader.Valid() && Fails !in reader.channel.script
      invariant reader.pos <= |reader.stream|
      invariant lines + LinesFrom(reader.stream, reader.pos, maxlen - 1) == all
      decreases |reader.stream| - reader.pos
    {
      ghost var from := reader.pos;
      var line := ReadOneLine(reader, maxlen);
      if line == [] {
        LinesEnd(reader.stream, from, maxlen - 1);
        return;
      }
      LinesStep(reader.stream, from, reader.pos, maxlen - 1, lines);
      lines := lines + [line];
    }
  }
}
