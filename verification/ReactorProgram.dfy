/**
 The reactor as it runs: `g_events` is an array that the routines change in place, the search
 for a free slot, the sweep and the dispatch are loops.  Each method is proved equal to the
 function of the same routine in `Reactor`, so what is proved there holds here.
 */
module ReactorProgram {
  import opened Sockets
  import opened Reactor
  import opened ReactorSafety
  import opened ReactorLoop

  class EventLoop {
    const gEvents: array<Slot>
    var interest: map<int, Watch>
    var open: set<int>
    var conns: seq<Conn>
    var closed: set<nat>
    var checkpos: nat
    ghost var checks: nat

    ghost predicate Valid()
      reads this
    {
      gEvents.Length == MAX_EVENTS + 1 && checkpos <= MAX_EVENTS
    }

    ghost function View(): World
      reads this, gEvents
    {
      World(gEvents[..], interest, open, conns, closed)
    }

    ghost function LoopView(): Loop
      reads this, gEvents
    {
      Loop(View(), checkpos, checks)
    }

    /** `initlistensocket` on a fresh table. */
    constructor (lfd: int, fds: set<int>, now: int)
      ensures Valid() && fresh(gEvents) && LoopView() == Loop(Start(lfd, fds, now), 0, 0)
    {
      gEvents := new Slot[MAX_EVENTS + 1](_ => BLANK);
      interest, open, conns, closed := map[], fds, [], {};
      checkpos, checks := 0, 0;
      new;
      assert gEvents[..] == seq(MAX_EVENTS + 1, _ => BLANK);
      EventSet(MAX_EVENTS, lfd, AcceptConn, MAX_EVENTS, now);
      EventAdd(MAX_EVENTS, In);
    }

    method EventSet(i: SlotIndex, fd: int, callback: Callback, arg: SlotIndex, now: int)
      requires Valid()
      modifies gEvents
      ensures View() == SetEvent(old(View()), i, fd, callback, arg, now)
    {
      gEvents[i] := gEvents[i].(fd := fd, callback := callback);
      gEvents[i] := gEvents[i].(events := NoEvents, arg := arg);
      gEvents[i] := gEvents[i].(registered := false, lastActive := now);
    }

    method EventAdd(i: SlotIndex, events: Events)
      requires Valid()
      modifies gEvents, this`interest
      ensures Valid() && View() == AddEvent(old(View()), i, events)
    {
      var fd := gEvents[i].fd;
      gEvents[i] := gEvents[i].(events := events);
      var present := gEvents[i].registered;
      if !present {
        gEvents[i] := gEvents[i].(registered := true);
      }
      if (fd in interest) == present {
        interest := interest[fd := Watch(i, events)];
      }
    }

    method EventDel(i: SlotIndex)
      requires Valid()
      modifies gEvents, this`interest
      ensures Valid() && View() == DelEvent(old(View()), i)
    {
      if !gEvents[i].registered {
        return;
      }
      gEvents[i] := gEvents[i].(registered := false);
      interest := interest - {gEvents[i].fd};
    }

    method Close(fd: int)
      requires Valid()
      modifies this`interest, this`open, this`closed
      ensures Valid() && View() == CloseFd(old(View()), fd)
    {
      open, interest := open - {fd}, interest - {fd};
      closed := closed + ConnsOf(conns, fd);
    }

    method FindFree() returns (i: nat)
      requires Valid()
      ensures i == FreeSlot(View().slots, 0)
    {
      i := 0;
      while i < MAX_EVENTS && gEvents[i].registered
        invariant 0 <= i <= MAX_EVENTS
        invariant FreeSlot(View().slots, i) == FreeSlot(View().slots, 0)
      {
        i := i + 1;
      }
    }

    method RunAcceptConn(reply: Reply)
      requires Valid()
      modifies gEvents, this`interest, this`open, this`closed, this`conns
      ensures Valid() && View() == OnAccept(old(View()), reply)
    {
      if !reply.Accepted? {
        return;
      }
      open := open + {reply.fd};
      var i := FindFree();
      if i == MAX_EVENTS || !reply.nonblocking {
        return;
      }
      gEvents[i] := gEvents[i].(conn := |conns|);
      conns := conns + [Conn(reply.fd, [], [])];
      EventSet(i, reply.fd, RecvData, i, reply.now);
      EventAdd(i, In);
    }

    method RunRecvData(fd: int, i: SlotIndex, reply: Reply)
      requires Valid()
      modifies gEvents, this`interest, this`open, this`closed, this`conns
      ensures Valid() && View() == OnReadable(old(View()), fd, i, reply)
    {
      EventDel(i);
      if reply.Received? {
        gEvents[i] := gEvents[i].(chunk := reply.data);
        var c := gEvents[i].conn;
        if c < |conns| {
          conns := conns[c := conns[c].(received := conns[c].received + [reply.data])];
        }
        EventSet(i, fd, SendData, i, reply.now);
        EventAdd(i, Out);
      } else {
        Close(gEvents[i].fd);
      }
    }

    method RunSendData(fd: int, i: SlotIndex, reply: Reply)
      requires Valid()
      modifies gEvents, this`interest, this`open, this`closed, this`conns
      ensures Valid() && View() == OnWritable(old(View()), fd, i, reply)
    {
      if reply.Sent? {
        var c := gEvents[i].conn;
        if c < |conns| {
          var sent := gEvents[i].chunk[..Min(reply.count, |gEvents[i].chunk|)];
          conns := conns[c := conns[c].(sent := conns[c].sent + [sent])];
        }
        EventDel(i);
        EventSet(i, fd, RecvData, i, reply.now);
        EventAdd(i, In);
      } else {
        Close(gEvents[i].fd);
        EventDel(i);
      }
    }

    method RunCallback(s: SlotIndex, reply: Reply)
      requires Valid()
      modifies gEvents, this`interest, this`open, this`closed, this`conns
      ensures Valid() && View() == Call(old(View()), s, reply)
    {
      match gEvents[s].callback {
        case NoCallback =>
        case AcceptConn => RunAcceptConn(reply);
        case RecvData => RunRecvData(gEvents[s].fd, gEvents[s].arg, reply);
        case SendData => RunSendData(gEvents[s].fd, gEvents[s].arg, reply);
      }
    }

    /** The dispatch loop of `main` over one batch. */
    method DispatchBatch(batch: seq<Event>)
      requires Valid()
      modifies gEvents, this`interest, this`open, this`closed, this`conns
      ensures Valid() && View() == Dispatch(old(View()), batch)
    {
      var i := 0;
      while i < |batch|
        invariant 0 <= i <= |batch| && Valid()
        invariant Dispatch(View(), batch[i..]) == Dispatch(old(View()), batch)
      {
        DispatchEvent(batch[i]);
        assert batch[i..][1..] == batch[i + 1..];
        i := i + 1;
      }
    }

    method DispatchEvent(e: Event)
      requires Valid()
      modifies gEvents, this`interest, this`open, this`closed, this`conns
      ensures Valid() && View() == DispatchOne(old(View()), e)
    {
      if e.readable && gEvents[e.slot].events == In {
        RunCallback(e.slot, e.onRead);
      }
      if e.writable && gEvents[e.slot].events == Out {
        RunCallback(e.slot, e.onWrite);
      }
    }

    /** The timeout loop of `main`. */
    method SweepPass(now: int, perPass: nat)
      requires Valid()
      modifies gEvents, this`interest, this`open, this`closed, this`checkpos, this`checks
      ensures Valid() && LoopView() == Sweep(old(LoopView()), now, perPass)
    {
      var i := 0;
      while i < perPass
        invariant 0 <= i <= perPass && Valid()
        invariant Sweep(LoopView(), now, perPass - i) == Sweep(old(LoopView()), now, perPass)
      {
        CheckNext(now);
        i := i + 1;
      }
    }

    method CheckNext(now: int)
      requires Valid()
      modifies gEvents, this`interest, this`open, this`closed, this`checkpos, this`checks
      ensures Valid() && LoopView() == SweepOne(old(LoopView()), now)
    {
      if checkpos == MAX_EVENTS {
        checkpos := 0;
      }
      if gEvents[checkpos].registered {
        var duration := now - gEvents[checkpos].lastActive;
        if duration >= TIMEOUT {
          Close(gEvents[checkpos].fd);
          EventDel(checkpos);
        }
      }
      checkpos, checks := checkpos + 1, checks + 1;
    }

    /** One pass of the main loop. */
    method RunPass(input: Input)
      requires Valid()
      modifies this, gEvents
      ensures Valid() && LoopView() == Pass(old(LoopView()), input, CHECKS_PER_PASS)
    {
      SweepPass(input.now, CHECKS_PER_PASS);
      DispatchBatch(input.batch);
    }

    /** The main loop, pass after pass: what is proved of `Run` holds of the program's own
        table, interest set and history. */
    method RunPasses(inputs: seq<Input>)
      requires Valid() && LoopInv(LoopView()) && RunOk(LoopView(), inputs, CHECKS_PER_PASS)
      modifies this, gEvents
      ensures Valid() && LoopView() == Run(old(LoopView()), inputs, CHECKS_PER_PASS)
      ensures LoopInv(LoopView()) && Mirrored(View()) && EchoOk(View()) && LedgerOk(View())
    {
      var i := 0;
      while i < |inputs|
        invariant 0 <= i <= |inputs| && Valid()
        invariant LoopInv(LoopView()) && RunOk(LoopView(), inputs[i..], CHECKS_PER_PASS)
        invariant Run(LoopView(), inputs[i..], CHECKS_PER_PASS) == Run(old(LoopView()), inputs, CHECKS_PER_PASS)
      {
        ghost var before := LoopView();
        PassKeepsInv(before, inputs[i], CHECKS_PER_PASS);
        RunPass(inputs[i]);
        assert inputs[i..][1..] == inputs[i + 1..];
        i := i + 1;
      }
    }
  }

  /** The whole program: set-up, then the main loop. */
  method Serve(lfd: int, fds: set<int>, now: int, inputs: seq<Input>) returns (server: EventLoop)
    requires lfd in fds && RunOk(Loop(Start(lfd, fds, now), 0, 0), inputs, CHECKS_PER_PASS)
    ensures server.Valid()
    ensures server.LoopView() == Run(Loop(Start(lfd, fds, now), 0, 0), inputs, CHECKS_PER_PASS)
    ensures Mirrored(server.View()) && EchoOk(server.View()) && LedgerOk(server.View())
  {
    server := new EventLoop(lfd, fds, now);
    StartInv(lfd, fds, now);
    server.RunPasses(inputs);
  }
}
