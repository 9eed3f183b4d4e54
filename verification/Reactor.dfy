/**
 The epoll reactor (epoll_loop.c): a table of event slots that mirrors the kernel's interest
 set, callbacks that switch a slot between receiving and sending, and a dispatch loop over a
 batch of slots that was captured before any of its callbacks ran.

 This module is the reactor as functions on values, one per routine of the program.  The
 system calls' results are arguments, and the kernel side is what `close` and `epoll_ctl` do
 to the open descriptors and to the interest set.
 */
module Reactor {
  import opened Sockets

  const MAX_EVENTS := 1024
  const BUFLEN := 4096
  const CHECKS_PER_PASS := 100
  const TIMEOUT := 60

  /** A position in `g_events`; the last one is the listening socket's. */
  type SlotIndex = i: nat | i <= MAX_EVENTS

  datatype Callback = NoCallback | AcceptConn | RecvData | SendData
  datatype Events = NoEvents | In | Out

  /** `struct myevent_s`: `registered` is `status == 1`, `chunk` is `buf[..len]`.  `conn`
      numbers the connection the slot was last given, in the order they were accepted. */
  datatype Slot = Slot(fd: int, events: Events, arg: SlotIndex, callback: Callback, registered: bool,
                       chunk: seq<Byte>, lastActive: int, conn: nat)

  datatype Watch = Watch(slot: nat, events: Events)

  /** The descriptor a connection was accepted under, and what it has delivered and was sent
      back, call by call. */
  datatype Conn = Conn(fd: int, received: seq<seq<Byte>>, sent: seq<seq<Byte>>)

  /** `conns` and `closed` are history: the connections that were given a slot, and those of
      them whose descriptor was closed since. */
  datatype World = World(slots: seq<Slot>, interest: map<int, Watch>, open: set<int>,
                         conns: seq<Conn>, closed: set<nat>)

  // ---------------------------------------------------------------- routines

  function SetEvent(w: World, i: nat, fd: int, callback: Callback, arg: SlotIndex, now: int): World
    requires i < |w.slots|
  {
    w.(slots := w.slots[i := w.slots[i].(fd := fd, callback := callback, events := NoEvents, arg := arg,
                                         registered := false, lastActive := now)])
  }

  /** `epoll_ctl` refuses to modify what is not there and to add what is. */
  function AddEvent(w: World, i: nat, events: Events): World
    requires i < |w.slots|
  {
    var slot := w.slots[i];
    w.(slots := w.slots[i := slot.(events := events, registered := true)],
       interest := if (slot.fd in w.interest) == slot.registered
                   then w.interest[slot.fd := Watch(i, events)] else w.interest)
  }

  function DelEvent(w: World, i: nat): World
    requires i < |w.slots|
  {
    if !w.slots[i].registered then w
    else w.(slots := w.slots[i := w.slots[i].(registered := false)],
            interest := w.interest - {w.slots[i].fd})
  }

  /** The connections accepted so far under descriptor `fd`. */
  function ConnsOf(conns: seq<Conn>, fd: int): set<nat> {
    set c | 0 <= c < |conns| && conns[c].fd == fd
  }

  /** `close` also drops the descriptor from the interest set. */
  function CloseFd(w: World, fd: int): World {
    w.(open := w.open - {fd}, interest := w.interest - {fd}, closed := w.closed + ConnsOf(w.conns, fd))
  }

  /** The first free slot at or after `i`, or `MAX_EVENTS`. */
  function FreeSlot(slots: seq<Slot>, i: nat): (free: nat)
    requires i <= MAX_EVENTS < |slots|
    ensures i <= free <= MAX_EVENTS
    ensures free < MAX_EVENTS ==> !slots[free].registered
    ensures forall k | i <= k < free :: slots[k].registered
    decreases MAX_EVENTS - i
  {
    if i == MAX_EVENTS || !slots[i].registered then i else FreeSlot(slots, i + 1)
  }

  /** The result of the system call a callback makes, and the time of its `eventset`. */
  datatype Reply =
    | Accepted(fd: int, nonblocking: bool, now: int)
    | Received(data: seq<Byte>, now: int)
    | Sent(count: nat, now: int)
    | Failed

  function OnAccept(w: World, reply: Reply): World
    requires |w.slots| == MAX_EVENTS + 1
  {
    if !reply.Accepted? then w
    else
      var accepted := w.(open := w.open + {reply.fd});
      var i := FreeSlot(w.slots, 0);
      if i == MAX_EVENTS || !reply.nonblocking then accepted
      else
        var named := accepted.(slots := w.slots[i := w.slots[i].(conn := |w.conns|)],
                               conns := w.conns + [Conn(reply.fd, [], [])]);
        AddEvent(SetEvent(named, i, reply.fd, RecvData, i, reply.now), i, In)
  }

  function OnReadable(w: World, fd: int, i: SlotIndex, reply: Reply): World
    requires |w.slots| == MAX_EVENTS + 1
  {
    var gone := DelEvent(w, i);
    if reply.Received? then
      var c := w.slots[i].conn;
      var stored := gone.(
        slots := gone.slots[i := gone.slots[i].(chunk := reply.data)],
        conns := if c < |w.conns| then w.conns[c := w.conns[c].(received := w.conns[c].received + [reply.data])]
                 else w.conns);
      AddEvent(SetEvent(stored, i, fd, SendData, i, reply.now), i, Out)
    else
      CloseFd(gone, gone.slots[i].fd)
  }

  /** `send` never reports more than it was given. */
  function OnWritable(w: World, fd: int, i: SlotIndex, reply: Reply): World
    requires |w.slots| == MAX_EVENTS + 1
  {
    if reply.Sent? then
      var c, sent := w.slots[i].conn, w.slots[i].chunk[..Min(reply.count, |w.slots[i].chunk|)];
      var logged := w.(
        conns := if c < |w.conns| then w.conns[c := w.conns[c].(sent := w.conns[c].sent + [sent])]
                 else w.conns);
      AddEvent(SetEvent(DelEvent(logged, i), i, fd, RecvData, i, reply.now), i, In)
    else
      DelEvent(CloseFd(w, w.slots[i].fd), i)
  }

  /** The replies the kernel can give to the callback of slot `s`: `accept` returns a descriptor
      that is not open, `recv` and `send` move something or the connection is over. */
  predicate ReplyOk(w: World, s: SlotIndex, reply: Reply)
    requires |w.slots| == MAX_EVENTS + 1
  {
    match reply
    case Accepted(fd, _, _) => w.slots[s].callback == AcceptConn && fd !in w.open
    case Received(data, _) => w.slots[s].callback == RecvData && 0 < |data| <= BUFLEN
    case Sent(count, _) => w.slots[s].callback == SendData && 0 < count <= |w.slots[s].chunk|
    case Failed => true
  }

  function Call(w: World, s: SlotIndex, reply: Reply): (t: World)
    requires |w.slots| == MAX_EVENTS + 1
    ensures |t.slots| == MAX_EVENTS + 1
  {
    var slot := w.slots[s];
    match slot.callback
    case NoCallback => w
    case AcceptConn => OnAccept(w, reply)
    case RecvData => OnReadable(w, slot.fd, slot.arg, reply)
    case SendData => OnWritable(w, slot.fd, slot.arg, reply)
  }

  const BLANK := Slot(0, NoEvents, 0, NoCallback, false, [], 0, 0)

  /** The reactor after `initlistensocket`; `open` are the descriptors open by then. */
  function Start(lfd: int, open: set<int>, now: int): World {
    var blank := World(seq(MAX_EVENTS + 1, _ => BLANK), map[], open, [], {});
    AddEvent(SetEvent(blank, MAX_EVENTS, lfd, AcceptConn, MAX_EVENTS, now), MAX_EVENTS, In)
  }

  // ---------------------------------------------------------------- dispatch

  /** One reported event, with the replies its callbacks would get. */
  datatype Event = Event(slot: SlotIndex, readable: bool, writable: bool, onRead: Reply, onWrite: Reply)

  predicate FiresRead(w: World, e: Event)
    requires |w.slots| == MAX_EVENTS + 1
  {
    e.readable && w.slots[e.slot].events == In
  }

  predicate FiresWrite(w: World, e: Event)
    requires |w.slots| == MAX_EVENTS + 1
  {
    e.writable && w.slots[e.slot].events == Out
  }

  function AfterRead(w: World, e: Event): (t: World)
    requires |w.slots| == MAX_EVENTS + 1
    ensures |t.slots| == MAX_EVENTS + 1
  {
    if FiresRead(w, e) then Call(w, e.slot, e.onRead) else w
  }

  /** The two tests of the dispatch loop, the second on what the first left behind. */
  function DispatchOne(w: World, e: Event): (t: World)
    requires |w.slots| == MAX_EVENTS + 1
    ensures |t.slots| == MAX_EVENTS + 1
  {
    var t := AfterRead(w, e);
    if FiresWrite(t, e) then Call(t, e.slot, e.onWrite) else t
  }

  function Dispatch(w: World, batch: seq<Event>): (t: World)
    requires |w.slots| == MAX_EVENTS + 1
    ensures |t.slots| == MAX_EVENTS + 1
    decreases |batch|
  {
    if batch == [] then w else Dispatch(DispatchOne(w, batch[0]), batch[1..])
  }

  // ---------------------------------------------------------------- the timeout sweep

  function CheckSlot(w: World, pos: nat, now: int): World
    requires pos < |w.slots|
  {
    if w.slots[pos].registered && now - w.slots[pos].lastActive >= TIMEOUT
    then DelEvent(CloseFd(w, w.slots[pos].fd), pos)
    else w
  }

  /** The main loop's variables; `checks` counts the slots examined since the start. */
  datatype Loop = Loop(world: World, checkpos: nat, checks: nat)

  function SweepOne(l: Loop, now: int): (m: Loop)
    requires |l.world.slots| == MAX_EVENTS + 1 && l.checkpos <= MAX_EVENTS
    ensures |m.world.slots| == MAX_EVENTS + 1 && m.checkpos <= MAX_EVENTS
  {
    var pos := if l.checkpos == MAX_EVENTS then 0 else l.checkpos;
    Loop(CheckSlot(l.world, pos, now), pos + 1, l.checks + 1)
  }

  function Sweep(l: Loop, now: int, n: nat): (m: Loop)
    requires |l.world.slots| == MAX_EVENTS + 1 && l.checkpos <= MAX_EVENTS
    ensures |m.world.slots| == MAX_EVENTS + 1 && m.checkpos <= MAX_EVENTS
    decreases n
  {
    if n == 0 then l else Sweep(SweepOne(l, now), now, n - 1)
  }

  // ---------------------------------------------------------------- the main loop

  /** What one pass of the loop gets from outside. */
  datatype Input = Input(now: int, batch: seq<Event>)

  /** One pass: a sweep of `perPass` checks, then the batch.  The program's `perPass` is
      `CHECKS_PER_PASS`. */
  function Pass(l: Loop, input: Input, perPass: nat): (m: Loop)
    requires |l.world.slots| == MAX_EVENTS + 1 && l.checkpos <= MAX_EVENTS
    ensures |m.world.slots| == MAX_EVENTS + 1 && m.checkpos <= MAX_EVENTS
  {
    var swept := Sweep(l, input.now, perPass);
    swept.(world := Dispatch(swept.world, input.batch))
  }

  function Run(l: Loop, inputs: seq<Input>, perPass: nat): (m: Loop)
    requires |l.world.slots| == MAX_EVENTS + 1 && l.checkpos <= MAX_EVENTS
    ensures |m.world.slots| == MAX_EVENTS + 1 && m.checkpos <= MAX_EVENTS
    decreases |inputs|
  {
    if inputs == [] then l else Run(Pass(l, inputs[0], perPass), inputs[1..], perPass)
  }
}
