/**
 What the reactor does for its clients: every event that was reported is served with the reply
 its system call gave, and nobody else notices.  The statements speak of the batch, the table at
 the wait and the table after the batch only.
 */
module ReactorService {
  import opened Reactor
  import opened ReactorSafety
  import opened ReactorLoop

  /** Slot `i` still holds the connection it held at the wait, last active at `now`. */
  predicate StillThere(w: World, t: World, i: nat, now: int) {
    && i < |w.slots| && i < |t.slots|
    && t.slots[i].registered
    && t.slots[i].fd == w.slots[i].fd
    && t.slots[i].conn == w.slots[i].conn
    && t.slots[i].lastActive == now
  }

  /** What an event on a client slot comes to: the received chunk is the connection's next
      input, the sent prefix of the pending chunk its next output, a failed call closes it, and
      an event that is neither readable nor writable changes nothing. */
  predicate ClientServed(w: World, t: World, e: Event)
    requires |w.slots| == |t.slots| == MAX_EVENTS + 1
  {
    var slot, c := w.slots[e.slot], w.slots[e.slot].conn;
    && c < |w.conns| <= |t.conns|
    && if e.readable && e.onRead.Received? then
         && t.conns[c] == w.conns[c].(received := w.conns[c].received + [e.onRead.data])
         && StillThere(w, t, e.slot, e.onRead.now)
       else if e.writable && e.onWrite.Sent? then
         && e.onWrite.count <= |slot.chunk|
         && t.conns[c] == w.conns[c].(sent := w.conns[c].sent + [slot.chunk[..e.onWrite.count]])
         && StillThere(w, t, e.slot, e.onWrite.now)
       else
         && t.conns[c] == w.conns[c]
         && if e.readable || e.writable then c in t.closed else t.slots[e.slot] == slot
  }

  /** The lowest client slot that is not registered. */
  predicate IsLowestFree(w: World, i: nat) {
    i < MAX_EVENTS < |w.slots| && !w.slots[i].registered && forall k | 0 <= k < i :: w.slots[k].registered
  }

  ghost predicate HasRoom(w: World) {
    exists i: nat :: IsLowestFree(w, i)
  }

  /** A connection that the listening event at `u` brings in: it is the next one, and it sits in
      the lowest slot that was free. */
  ghost predicate Enrolled(u: World, t: World, fd: int, now: int)
    requires |t.slots| == MAX_EVENTS + 1
  {
    && |t.conns| == |u.conns| + 1
    && t.conns[|u.conns|] == Conn(fd, [], [])
    && exists i: nat ::
         && IsLowestFree(u, i)
         && t.slots[i].registered && t.slots[i].fd == fd
         && t.slots[i].conn == |u.conns| && t.slots[i].lastActive == now
  }

  /** What an event on the listening slot comes to: `u` is the world when its turn came. */
  ghost predicate ListenerServed(u: World, t: World, e: Event)
    requires |t.slots| == MAX_EVENTS + 1
  {
    if e.readable && e.onRead.Accepted? && e.onRead.nonblocking && HasRoom(u)
    then Enrolled(u, t, e.onRead.fd, e.onRead.now)
    else |t.conns| == |u.conns|
  }

  // ---------------------------------------------------------------- one event

  lemma ReadServes(w: World, e: Event)
    requires Inv(w) && Reported(w, e) && RepliesOk(w, [e]) && e.slot < MAX_EVENTS && e.readable
    ensures ClientServed(w, DispatchOne(w, e), e)
  {
    ReportedIsRegistered(w, e);
    DispatchOneCalls(w, e);
    assert SlotOk(w, e.slot) && EchoSlotOk(w, e.slot) && LedgerSlotOk(w, e.slot);
    if e.onRead.Received? {
      ReadEffect(w, e.slot, e.onRead);
    } else {
      FailEffect(w, e.slot);
    }
  }

  lemma WriteServes(w: World, e: Event)
    requires Inv(w) && Reported(w, e) && RepliesOk(w, [e]) && e.slot < MAX_EVENTS && e.writable
    ensures ClientServed(w, DispatchOne(w, e), e)
  {
    ReportedIsRegistered(w, e);
    DispatchOneCalls(w, e);
    assert SlotOk(w, e.slot) && EchoSlotOk(w, e.slot) && LedgerSlotOk(w, e.slot);
    if e.onWrite.Sent? {
      WriteEffect(w, e.slot, e.onWrite);
    } else {
      FailEffect(w, e.slot);
    }
  }

  lemma StepServes(w: World, e: Event)
    requires Inv(w) && Reported(w, e) && RepliesOk(w, [e]) && e.slot < MAX_EVENTS
    ensures ClientServed(w, DispatchOne(w, e), e)
  {
    if e.readable {
      ReadServes(w, e);
    } else if e.writable {
      WriteServes(w, e);
    } else {
      ReportedIsRegistered(w, e);
      assert EchoSlotOk(w, e.slot);
    }
  }

  /** An event changes no connection but that of its own slot, and only the listening slot's
      event brings one in. */
  lemma StepSpares(w: World, e: Event, c: nat)
    requires Inv(w) && Reported(w, e) && RepliesOk(w, [e])
    requires c < |w.conns| && (e.slot < MAX_EVENTS ==> w.slots[e.slot].conn != c)
    ensures var t := DispatchOne(w, e);
            && |w.conns| <= |t.conns|
            && t.conns[c] == w.conns[c]
            && w.closed <= t.closed
  {
    ReportedIsRegistered(w, e);
    DispatchOneCalls(w, e);
    assert SlotOk(w, e.slot) && EchoSlotOk(w, e.slot);
    var reply := if e.readable then e.onRead else e.onWrite;
    if e.slot == MAX_EVENTS {
      if e.readable && reply.Accepted? { AcceptEffect(w, reply); }
    } else if reply == Failed {
      FailEffect(w, e.slot);
    } else if e.readable {
      ReadEffect(w, e.slot, reply);
    } else if e.writable {
      WriteEffect(w, e.slot, reply);
    }
  }

  lemma ClientAddsNone(w: World, e: Event)
    requires Inv(w) && Reported(w, e) && RepliesOk(w, [e]) && e.slot < MAX_EVENTS
    ensures |DispatchOne(w, e).conns| == |w.conns|
  {
    ReportedIsRegistered(w, e);
    DispatchOneCalls(w, e);
    assert SlotOk(w, e.slot);
  }

  lemma StepAccepts(w: World, e: Event)
    requires Inv(w) && Reported(w, e) && RepliesOk(w, [e]) && e.slot == MAX_EVENTS
    ensures ListenerServed(w, DispatchOne(w, e), e)
  {
    ReportedIsRegistered(w, e);
    DispatchOneCalls(w, e);
    assert SlotOk(w, e.slot);
    var i := FreeSlot(w.slots, 0);
    assert i < MAX_EVENTS ==> IsLowestFree(w, i);
    if e.readable && e.onRead.Accepted? {
      AcceptEffect(w, e.onRead);
    }
  }

  // ---------------------------------------------------------------- a batch

  /** No event of the batch is for connection `c`. */
  predicate NotFor(w: World, batch: seq<Event>, c: nat)
    requires |w.slots| == MAX_EVENTS + 1
  {
    forall j | 0 <= j < |batch| && batch[j].slot < MAX_EVENTS :: w.slots[batch[j].slot].conn != c
  }

  /** The first event of a batch on its own, and the rest after it. */
  lemma FirstAndRest(w: World, batch: seq<Event>)
    requires Inv(w) && batch != [] && BatchOk(w, batch) && RepliesOk(w, batch)
    ensures RepliesOk(w, [batch[0]]) && Reported(w, batch[0])
    ensures var u := DispatchOne(w, batch[0]);
            && Inv(u) && BatchOk(u, batch[1..]) && RepliesOk(u, batch[1..])
            && OthersKept(w, u, batch[0].slot)
            && forall j | 0 <= j < |batch[1..]| :: u.slots[batch[1..][j].slot] == w.slots[batch[1..][j].slot]
  {
    assert [batch[0]][1..] == [];
    BatchStaysOk(w, batch);
    DispatchOneKeepsInv(w, batch[0]);
  }

  lemma {:induction false} BatchSpares(w: World, batch: seq<Event>, c: nat)
    requires Inv(w) && BatchOk(w, batch) && RepliesOk(w, batch)
    requires c < |w.conns| && NotFor(w, batch, c)
    ensures var t := Dispatch(w, batch);
            |w.conns| <= |t.conns| && t.conns[c] == w.conns[c] && w.closed <= t.closed
    decreases |batch|
  {
    if batch != [] {
      FirstAndRest(w, batch);
      StepSpares(w, batch[0], c);
      BatchSpares(DispatchOne(w, batch[0]), batch[1..], c);
    }
  }

  lemma {:induction false} BatchSparesSlot(w: World, batch: seq<Event>, i: nat)
    requires Inv(w) && BatchOk(w, batch) && RepliesOk(w, batch)
    requires i < |w.slots| && w.slots[i].registered && forall j | 0 <= j < |batch| :: batch[j].slot != i
    ensures Dispatch(w, batch).slots[i] == w.slots[i]
    decreases |batch|
  {
    if batch != [] {
      FirstAndRest(w, batch);
      BatchSparesSlot(DispatchOne(w, batch[0]), batch[1..], i);
    }
  }

  lemma {:induction false} BatchAddsNone(w: World, batch: seq<Event>)
    requires Inv(w) && BatchOk(w, batch) && RepliesOk(w, batch)
    requires forall j | 0 <= j < |batch| :: batch[j].slot < MAX_EVENTS
    ensures |Dispatch(w, batch).conns| == |w.conns|
    decreases |batch|
  {
    if batch != [] {
      FirstAndRest(w, batch);
      ClientAddsNone(w, batch[0]);
      BatchAddsNone(DispatchOne(w, batch[0]), batch[1..]);
    }
  }

  /** Two registered client slots hold different connections. */
  lemma ConnsDiffer(w: World, i: nat, j: nat)
    requires Inv(w) && i < MAX_EVENTS && j < MAX_EVENTS && i != j
    requires w.slots[i].registered && w.slots[j].registered
    ensures w.slots[i].conn != w.slots[j].conn
  {
    assert SameConn(w, i, j) ==> i == j;
  }

  /** A connection without an event in the batch is exactly as it was, and so is its slot. */
  lemma NoEventNoChange(w: World, batch: seq<Event>, i: nat)
    requires Inv(w) && BatchOk(w, batch) && RepliesOk(w, batch)
    requires i < MAX_EVENTS && w.slots[i].registered && forall j | 0 <= j < |batch| :: batch[j].slot != i
    ensures var t, c := Dispatch(w, batch), w.slots[i].conn;
            && t.slots[i] == w.slots[i]
            && c < |w.conns| <= |t.conns|
            && t.conns[c] == w.conns[c]
  {
    assert EchoSlotOk(w, i);
    forall j | 0 <= j < |batch| && batch[j].slot < MAX_EVENTS
      ensures w.slots[batch[j].slot].conn != w.slots[i].conn
    {
      ReportedIsRegistered(w, batch[j]);
      ConnsDiffer(w, batch[j].slot, i);
    }
    BatchSpares(w, batch, w.slots[i].conn);
    BatchSparesSlot(w, batch, i);
  }

  /** What the first event did is still so at the end of the batch. */
  lemma FirstStaysServed(w: World, batch: seq<Event>)
    requires Inv(w) && batch != [] && BatchOk(w, batch) && RepliesOk(w, batch) && batch[0].slot < MAX_EVENTS
    ensures ClientServed(w, Dispatch(w, batch), batch[0])
  {
    var e, u, rest := batch[0], DispatchOne(w, batch[0]), batch[1..];
    var c := w.slots[e.slot].conn;
    FirstAndRest(w, batch);
    StepServes(w, e);
    ReportedIsRegistered(w, e);
    forall j | 0 <= j < |rest| && rest[j].slot < MAX_EVENTS ensures u.slots[rest[j].slot].conn != c {
      ReportedIsRegistered(w, batch[j + 1]);
      ConnsDiffer(w, rest[j].slot, e.slot);
    }
    BatchSpares(u, rest, c);
    if u.slots[e.slot].registered {
      BatchSparesSlot(u, rest, e.slot);
    }
  }

  lemma ServedFromEarlier(w: World, u: World, t: World, e: Event)
    requires |w.slots| == |u.slots| == |t.slots| == MAX_EVENTS + 1
    requires ClientServed(u, t, e) && u.slots[e.slot] == w.slots[e.slot]
    requires w.slots[e.slot].conn < |w.conns| <= |u.conns|
    requires u.conns[w.slots[e.slot].conn] == w.conns[w.slots[e.slot].conn]
    ensures ClientServed(w, t, e)
  {
  }

  /** Every event of a batch on a client slot is served, with the reply its system call gave. */
  lemma {:induction false} EventIsServed(w: World, batch: seq<Event>, k: nat)
    requires Inv(w) && BatchOk(w, batch) && RepliesOk(w, batch)
    requires k < |batch| && batch[k].slot < MAX_EVENTS
    ensures ClientServed(w, Dispatch(w, batch), batch[k])
    decreases |batch|
  {
    if k == 0 {
      FirstStaysServed(w, batch);
    } else {
      var e, u := batch[k], DispatchOne(w, batch[0]);
      FirstAndRest(w, batch);
      assert batch[1..][k - 1] == e;
      EventIsServed(u, batch[1..], k - 1);
      ReportedIsRegistered(w, e);
      ReportedIsRegistered(w, batch[0]);
      assert EchoSlotOk(w, e.slot);
      if batch[0].slot < MAX_EVENTS {
        ConnsDiffer(w, batch[0].slot, e.slot);
      }
      StepSpares(w, batch[0], w.slots[e.slot].conn);
      ServedFromEarlier(w, u, Dispatch(w, batch), e);
    }
  }

  lemma FirstStaysAccepted(w: World, batch: seq<Event>)
    requires Inv(w) && batch != [] && BatchOk(w, batch) && RepliesOk(w, batch) && batch[0].slot == MAX_EVENTS
    ensures ListenerServed(w, Dispatch(w, batch), batch[0])
  {
    var e, u, rest := batch[0], DispatchOne(w, batch[0]), batch[1..];
    FirstAndRest(w, batch);
    StepAccepts(w, e);
    BatchAddsNone(u, rest);
    if |u.conns| > |w.conns| {
      var i: nat :| IsLowestFree(w, i) && u.slots[i].registered && u.slots[i].fd == e.onRead.fd
                    && u.slots[i].conn == |w.conns| && u.slots[i].lastActive == e.onRead.now;
      forall j | 0 <= j < |rest| ensures rest[j].slot != i {
        ReportedIsRegistered(w, batch[j + 1]);
      }
      NoEventNoChange(u, rest, i);
    }
  }

  /** An accepted client gets the lowest slot that is free when its turn comes; nothing else
      brings a connection in. */
  lemma {:induction false} ListenerIsServed(w: World, batch: seq<Event>, k: nat)
    requires Inv(w) && BatchOk(w, batch) && RepliesOk(w, batch)
    requires k < |batch| && batch[k].slot == MAX_EVENTS
    ensures var u := Dispatch(w, batch[..k]);
            |u.conns| == |w.conns| && ListenerServed(u, Dispatch(w, batch), batch[k])
    decreases |batch|
  {
    if k == 0 {
      assert batch[..0] == [];
      FirstStaysAccepted(w, batch);
    } else {
      FirstAndRest(w, batch);
      ClientAddsNone(w, batch[0]);
      ListenerIsServed(DispatchOne(w, batch[0]), batch[1..], k - 1);
      assert batch[..k][1..] == batch[1..][..k - 1];
      assert batch[1..][k - 1] == batch[k];
    }
  }

  // ---------------------------------------------------------------- every run

  /** Over every run of the program: each event that a wait reports is served in that pass. */
  lemma EveryEventIsServed(lfd: int, open: set<int>, start: int, inputs: seq<Input>, input: Input, k: nat)
    requires var l := Loop(Start(lfd, open, start), 0, 0);
             && lfd in open
             && RunOk(l, inputs, CHECKS_PER_PASS)
             && InputOk(Run(l, inputs, CHECKS_PER_PASS), input, CHECKS_PER_PASS)
    requires k < |input.batch|
    ensures var l := Run(Loop(Start(lfd, open, start), 0, 0), inputs, CHECKS_PER_PASS);
            var waited := Sweep(l, input.now, CHECKS_PER_PASS).world;
            var t := Pass(l, input, CHECKS_PER_PASS).world;
            if input.batch[k].slot < MAX_EVENTS then ClientServed(waited, t, input.batch[k])
            else ListenerServed(Dispatch(waited, input.batch[..k]), t, input.batch[k])
  {
    var first := Loop(Start(lfd, open, start), 0, 0);
    StartInv(lfd, open, start);
    RunKeepsInv(first, inputs, CHECKS_PER_PASS);
    var l := Run(first, inputs, CHECKS_PER_PASS);
    SweepKeepsInv(l, input.now, CHECKS_PER_PASS);
    var waited := Sweep(l, input.now, CHECKS_PER_PASS).world;
    if input.batch[k].slot < MAX_EVENTS {
      EventIsServed(waited, input.batch, k);
    } else {
      ListenerIsServed(waited, input.batch, k);
    }
  }
}
