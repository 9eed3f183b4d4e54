/**
 What every callback of the reactor keeps: the slot table mirrors the interest set, each slot
 is in one of its two modes, and each connection is echoed chunk by chunk.
 */
module ReactorSafety {
  import opened Sockets
  import opened Reactor

  // ---------------------------------------------------------------- the mirror

  /** A registered slot: the listener accepts, a client either receives or has a chunk to send. */
  predicate ModeOk(slot: Slot, i: nat) {
    && slot.arg == i
    && if i == MAX_EVENTS then slot.callback == AcceptConn && slot.events == In
       else || (slot.callback == RecvData && slot.events == In)
            || (slot.callback == SendData && slot.events == Out && 0 < |slot.chunk| <= BUFLEN)
  }

  ghost predicate SlotOk(w: World, i: nat)
    requires i < |w.slots|
  {
    var slot := w.slots[i];
    slot.registered ==>
      && slot.fd in w.interest
      && w.interest[slot.fd] == Watch(i, slot.events)
      && slot.fd in w.open
      && ModeOk(slot, i)
  }

  ghost predicate WatchOk(w: World, fd: int)
    requires fd in w.interest
  {
    var i := w.interest[fd].slot;
    i < |w.slots| && w.slots[i].registered && w.slots[i].fd == fd
  }

  /** The table and the interest set say the same thing. */
  ghost predicate Mirrored(w: World) {
    && |w.slots| == MAX_EVENTS + 1
    && (forall i | 0 <= i < |w.slots| :: SlotOk(w, i))
    && (forall fd | fd in w.interest :: WatchOk(w, fd))
    && w.slots[MAX_EVENTS].registered
  }

  /** Registered descriptors are pairwise distinct. */
  lemma FdsDistinct(w: World, i: nat, j: nat)
    requires Mirrored(w) && i < |w.slots| && j < |w.slots|
    requires w.slots[i].registered && w.slots[j].registered && w.slots[i].fd == w.slots[j].fd
    ensures i == j
  {
    assert SlotOk(w, i) && SlotOk(w, j);
  }

  /** `status == 1` exactly when the interest set maps the slot's descriptor to the slot. */
  lemma RegisteredIffWatched(w: World, i: nat)
    requires Mirrored(w) && i < |w.slots|
    ensures w.slots[i].registered <==>
              w.slots[i].fd in w.interest && w.interest[w.slots[i].fd].slot == i
  {
    assert SlotOk(w, i);
    if w.slots[i].fd in w.interest {
      assert WatchOk(w, w.slots[i].fd);
    }
  }

  lemma WatchedIsOpen(w: World, fd: int)
    requires Mirrored(w)
    ensures fd in w.interest ==> fd in w.open
  {
    assert fd in w.interest ==> WatchOk(w, fd) && SlotOk(w, w.interest[fd].slot);
  }

  /** The interest set without what slot `i` put there. */
  function Without(w: World, i: nat): map<int, Watch>
    requires i < |w.slots|
  {
    if w.slots[i].registered then w.interest - {w.slots[i].fd} else w.interest
  }

  /** A slot may be given a new registration under a descriptor nobody else uses. */
  lemma ReplaceKeepsMirror(w: World, t: World, i: nat, slot: Slot)
    requires Mirrored(w) && i < |w.slots| && slot.registered && ModeOk(slot, i)
    requires slot.fd !in Without(w, i) && slot.fd in t.open && w.open <= t.open
    requires t.slots == w.slots[i := slot]
    requires t.interest == Without(w, i)[slot.fd := Watch(i, slot.events)]
    ensures Mirrored(t)
  {
    forall j | 0 <= j < |t.slots| ensures SlotOk(t, j) {
      assert SlotOk(w, j) && SlotOk(w, i);
    }
    forall fd | fd in t.interest ensures WatchOk(t, fd) {
      if fd != slot.fd {
        assert WatchOk(w, fd) && SlotOk(w, i);
      }
    }
  }

  /** A client slot may be dropped together with its descriptor. */
  lemma DropKeepsMirror(w: World, t: World, i: nat, slot: Slot)
    requires Mirrored(w) && i < MAX_EVENTS && w.slots[i].registered && !slot.registered
    requires t.slots == w.slots[i := slot]
    requires t.interest == w.interest - {w.slots[i].fd}
    requires t.open == w.open - {w.slots[i].fd}
    ensures Mirrored(t)
  {
    forall j | 0 <= j < |t.slots| ensures SlotOk(t, j) {
      assert SlotOk(w, j) && SlotOk(w, i);
    }
    forall fd | fd in t.interest ensures WatchOk(t, fd) {
      assert WatchOk(w, fd);
    }
  }

  // ---------------------------------------------------------------- what the callbacks do

  /** The slot a callback leaves behind. */
  function Rearmed(slot: Slot, callback: Callback, events: Events, i: SlotIndex, now: int): Slot {
    slot.(callback := callback, events := events, arg := i, registered := true, lastActive := now)
  }

  lemma AcceptEffect(w: World, reply: Reply)
    requires Mirrored(w) && reply.Accepted? && reply.fd !in w.open
    ensures var i := FreeSlot(w.slots, 0);
            OnAccept(w, reply) ==
              if i == MAX_EVENTS || !reply.nonblocking then w.(open := w.open + {reply.fd})
              else w.(open := w.open + {reply.fd},
                      slots := w.slots[i := Rearmed(w.slots[i].(fd := reply.fd, conn := |w.conns|),
                                                    RecvData, In, i, reply.now)],
                      interest := w.interest[reply.fd := Watch(i, In)],
                      conns := w.conns + [Conn(reply.fd, [], [])])
  {
    WatchedIsOpen(w, reply.fd);
  }

  lemma ReadEffect(w: World, i: nat, reply: Reply)
    requires Mirrored(w) && i < MAX_EVENTS && w.slots[i].registered && reply.Received?
    requires w.slots[i].conn < |w.conns|
    ensures var c := w.slots[i].conn;
            OnReadable(w, w.slots[i].fd, i, reply) ==
              w.(slots := w.slots[i := Rearmed(w.slots[i].(chunk := reply.data), SendData, Out, i, reply.now)],
                 interest := Without(w, i)[w.slots[i].fd := Watch(i, Out)],
                 conns := w.conns[c := w.conns[c].(received := w.conns[c].received + [reply.data])])
  {
  }

  lemma WriteEffect(w: World, i: nat, reply: Reply)
    requires Mirrored(w) && i < MAX_EVENTS && w.slots[i].registered
    requires reply.Sent? && reply.count <= |w.slots[i].chunk|
    requires w.slots[i].conn < |w.conns|
    ensures var c := w.slots[i].conn;
            OnWritable(w, w.slots[i].fd, i, reply) ==
              w.(slots := w.slots[i := Rearmed(w.slots[i], RecvData, In, i, reply.now)],
                 interest := Without(w, i)[w.slots[i].fd := Watch(i, In)],
                 conns := w.conns[c := w.conns[c].(sent := w.conns[c].sent + [w.slots[i].chunk[..reply.count]])])
  {
  }

  /** A failed receive or send, like a timeout, closes the descriptor and frees the slot. */
  function Dropped(w: World, i: nat): World
    requires i < |w.slots|
  {
    w.(slots := w.slots[i := w.slots[i].(registered := false)],
       interest := w.interest - {w.slots[i].fd},
       open := w.open - {w.slots[i].fd},
       closed := w.closed + ConnsOf(w.conns, w.slots[i].fd))
  }

  lemma FailEffect(w: World, i: SlotIndex)
    requires |w.slots| == MAX_EVENTS + 1 && w.slots[i].registered
    ensures OnReadable(w, w.slots[i].fd, i, Failed) == Dropped(w, i)
    ensures OnWritable(w, w.slots[i].fd, i, Failed) == Dropped(w, i)
  {
    assert w.interest - {w.slots[i].fd} - {w.slots[i].fd} == w.interest - {w.slots[i].fd};
  }

  // ---------------------------------------------------------------- the echo

  /** Receives and sends alternate, and each send is a nonempty prefix of the chunk before it. */
  ghost predicate ConnOk(c: Conn) {
    && |c.sent| <= |c.received| <= |c.sent| + 1
    && forall k | 0 <= k < |c.sent| :: c.sent[k] != [] && c.sent[k] <= c.received[k]
  }

  /** A client slot's mode is where its connection stands, and a slot about to send holds
      exactly the chunk that connection delivered last. */
  ghost predicate EchoSlotOk(w: World, i: nat)
    requires i < |w.slots|
  {
    var slot := w.slots[i];
    slot.registered && i < MAX_EVENTS ==>
      && slot.conn < |w.conns|
      && var c := w.conns[slot.conn];
         if slot.callback == SendData
         then |c.received| == |c.sent| + 1 && c.received[|c.sent|] == slot.chunk
         else |c.received| == |c.sent|
  }

  ghost predicate SameConn(w: World, i: nat, j: nat)
    requires i < |w.slots| && j < |w.slots|
  {
    w.slots[i].registered && w.slots[j].registered && w.slots[i].conn == w.slots[j].conn
  }

  ghost predicate EchoOk(w: World) {
    && |w.slots| == MAX_EVENTS + 1
    && (forall k | 0 <= k < |w.conns| :: ConnOk(w.conns[k]))
    && (forall i | 0 <= i < |w.slots| :: EchoSlotOk(w, i))
    && (forall i, j | 0 <= i < MAX_EVENTS && 0 <= j < MAX_EVENTS && SameConn(w, i, j) :: i == j)
  }

  /** One slot and its connection move on; nobody else notices. */
  lemma MoveKeepsEcho(w: World, t: World, i: nat, slot: Slot, conn: Conn)
    requires EchoOk(w) && i < MAX_EVENTS && w.slots[i].registered
    requires slot.conn == w.slots[i].conn && ConnOk(conn)
    requires t.slots == w.slots[i := slot]
    requires slot.conn < |w.conns| && t.conns == w.conns[slot.conn := conn]
    requires EchoSlotOk(t, i)
    ensures EchoOk(t)
  {
    forall j | 0 <= j < |t.slots| ensures EchoSlotOk(t, j) {
      assert EchoSlotOk(w, j);
      if j != i && j < MAX_EVENTS && w.slots[j].registered {
        assert SameConn(w, i, j) ==> i == j;
      }
    }
    forall a, b | 0 <= a < MAX_EVENTS && 0 <= b < MAX_EVENTS && SameConn(t, a, b) ensures a == b {
      assert SameConn(w, a, b);
    }
  }

  lemma NewConnKeepsEcho(w: World, t: World, i: nat, slot: Slot, fd: int)
    requires EchoOk(w) && i < MAX_EVENTS && !w.slots[i].registered
    requires slot.conn == |w.conns| && slot.callback == RecvData
    requires t.slots == w.slots[i := slot] && t.conns == w.conns + [Conn(fd, [], [])]
    ensures EchoOk(t)
  {
    forall j | 0 <= j < |t.slots| ensures EchoSlotOk(t, j) {
      assert EchoSlotOk(w, j);
    }
    forall a, b | 0 <= a < MAX_EVENTS && 0 <= b < MAX_EVENTS && SameConn(t, a, b) ensures a == b {
      assert EchoSlotOk(w, a) && EchoSlotOk(w, b);
      assert a != i && b != i ==> SameConn(w, a, b);
    }
  }

  lemma DropKeepsEcho(w: World, i: nat)
    requires EchoOk(w) && i < MAX_EVENTS
    ensures EchoOk(Dropped(w, i))
  {
    var t := Dropped(w, i);
    forall j | 0 <= j < |t.slots| ensures EchoSlotOk(t, j) {
      assert EchoSlotOk(w, j);
    }
    forall a, b | 0 <= a < MAX_EVENTS && 0 <= b < MAX_EVENTS && SameConn(t, a, b) ensures a == b {
      assert SameConn(w, a, b);
    }
  }

  // ---------------------------------------------------------------- the ledger

  /** A client slot holds an open connection, under the descriptor it was accepted with. */
  ghost predicate LedgerSlotOk(w: World, i: nat)
    requires i < |w.slots|
  {
    var slot := w.slots[i];
    slot.registered && i < MAX_EVENTS ==>
      slot.conn < |w.conns| && w.conns[slot.conn].fd == slot.fd && slot.conn !in w.closed
  }

  ghost predicate InSomeSlot(w: World, c: nat)
    requires |w.slots| == MAX_EVENTS + 1
  {
    exists i :: 0 <= i < MAX_EVENTS && w.slots[i].registered && w.slots[i].conn == c
  }

  /** Every connection that was ever given a slot is still in one, or its descriptor was
      closed; never both. */
  ghost predicate LedgerOk(w: World) {
    && |w.slots| == MAX_EVENTS + 1
    && (forall i | 0 <= i < |w.slots| :: LedgerSlotOk(w, i))
    && (forall c | 0 <= c < |w.conns| :: c in w.closed || InSomeSlot(w, c))
    && (forall c | c in w.closed :: c < |w.conns|)
  }

  /** A slot keeps its connection and descriptor, and the connection moves a chunk. */
  lemma MoveKeepsLedger(w: World, t: World, i: nat, slot: Slot, conn: Conn)
    requires LedgerOk(w) && i < MAX_EVENTS && w.slots[i].registered && slot.registered
    requires slot.conn == w.slots[i].conn && slot.fd == w.slots[i].fd
    requires slot.conn < |w.conns| && conn.fd == w.conns[slot.conn].fd
    requires t.slots == w.slots[i := slot] && t.conns == w.conns[slot.conn := conn] && t.closed == w.closed
    ensures LedgerOk(t)
  {
    forall j | 0 <= j < |t.slots| ensures LedgerSlotOk(t, j) {
      assert LedgerSlotOk(w, j) && LedgerSlotOk(w, i);
    }
    forall c | 0 <= c < |t.conns| ensures c in t.closed || InSomeSlot(t, c) {
      if c !in w.closed {
        var j :| 0 <= j < MAX_EVENTS && w.slots[j].registered && w.slots[j].conn == c;
        assert t.slots[j].registered && t.slots[j].conn == c;
      }
    }
  }

  lemma NewConnKeepsLedger(w: World, t: World, i: nat, slot: Slot, fd: int)
    requires LedgerOk(w) && i < MAX_EVENTS && !w.slots[i].registered && slot.registered
    requires slot.conn == |w.conns| && slot.fd == fd
    requires t.slots == w.slots[i := slot] && t.conns == w.conns + [Conn(fd, [], [])] && t.closed == w.closed
    ensures LedgerOk(t)
  {
    forall j | 0 <= j < |t.slots| ensures LedgerSlotOk(t, j) {
      assert LedgerSlotOk(w, j);
    }
    forall c | 0 <= c < |t.conns| ensures c in t.closed || InSomeSlot(t, c) {
      if c == |w.conns| {
        assert t.slots[i].conn == c;
      } else if c !in w.closed {
        var j :| 0 <= j < MAX_EVENTS && w.slots[j].registered && w.slots[j].conn == c;
        assert t.slots[j].registered && t.slots[j].conn == c;
      }
    }
  }

  /** Closing a slot's descriptor closes its connection and no other that is open. */
  lemma DropKeepsLedger(w: World, i: nat)
    requires Mirrored(w) && LedgerOk(w) && i < MAX_EVENTS && w.slots[i].registered
    ensures LedgerOk(Dropped(w, i))
  {
    var t := Dropped(w, i);
    forall j | 0 <= j < |t.slots| ensures LedgerSlotOk(t, j) {
      assert LedgerSlotOk(w, j);
      if j != i && w.slots[j].registered && w.slots[j].fd == w.slots[i].fd {
        FdsDistinct(w, i, j);
      }
    }
    assert LedgerSlotOk(w, i);
    forall c | 0 <= c < |t.conns| ensures c in t.closed || InSomeSlot(t, c) {
      if c !in t.closed {
        var j :| 0 <= j < MAX_EVENTS && w.slots[j].registered && w.slots[j].conn == c;
        assert j != i;
        assert t.slots[j].registered && t.slots[j].conn == c;
      }
    }
  }

  lemma SameTableKeepsLedger(w: World, t: World)
    requires LedgerOk(w) && t.slots == w.slots && t.conns == w.conns && t.closed == w.closed
    ensures LedgerOk(t)
  {
    forall j | 0 <= j < |t.slots| ensures LedgerSlotOk(t, j) {
      assert LedgerSlotOk(w, j);
    }
    forall c | 0 <= c < |t.conns| ensures c in t.closed || InSomeSlot(t, c) {
      assert InSomeSlot(w, c) ==> InSomeSlot(t, c);
    }
  }

  // ---------------------------------------------------------------- every callback

  ghost predicate Inv(w: World) {
    Mirrored(w) && EchoOk(w) && LedgerOk(w)
  }

  /** Slots other than `s` that were registered are exactly as they were. */
  ghost predicate OthersKept(w: World, t: World, s: nat) {
    && |t.slots| == |w.slots|
    && forall j | 0 <= j < |w.slots| && j != s && w.slots[j].registered :: t.slots[j] == w.slots[j]
  }

  lemma AcceptKeepsInv(w: World, reply: Reply)
    requires Inv(w) && ReplyOk(w, MAX_EVENTS, reply)
    ensures Inv(OnAccept(w, reply)) && OthersKept(w, OnAccept(w, reply), MAX_EVENTS)
    ensures OnAccept(w, reply).slots[MAX_EVENTS] == w.slots[MAX_EVENTS]
  {
    if reply.Accepted? {
      AcceptEffect(w, reply);
      var t := OnAccept(w, reply);
      var i := FreeSlot(w.slots, 0);
      if i == MAX_EVENTS || !reply.nonblocking {
        assert forall j | 0 <= j < |w.slots| :: SlotOk(w, j) ==> SlotOk(t, j);
        assert forall fd | fd in w.interest :: WatchOk(w, fd) ==> WatchOk(t, fd);
        assert forall j | 0 <= j < |w.slots| :: EchoSlotOk(w, j) ==> EchoSlotOk(t, j);
        assert forall a, b | 0 <= a < MAX_EVENTS && 0 <= b < MAX_EVENTS && SameConn(t, a, b) :: SameConn(w, a, b);
        SameTableKeepsLedger(w, t);
      } else {
        WatchedIsOpen(w, reply.fd);
        ReplaceKeepsMirror(w, t, i, t.slots[i]);
        NewConnKeepsEcho(w, t, i, t.slots[i], reply.fd);
        NewConnKeepsLedger(w, t, i, t.slots[i], reply.fd);
      }
    }
  }

  lemma ReadKeepsInv(w: World, i: nat, reply: Reply)
    requires Inv(w) && i < MAX_EVENTS && w.slots[i].registered && w.slots[i].callback == RecvData
    requires ReplyOk(w, i, reply)
    ensures var t := OnReadable(w, w.slots[i].fd, i, reply); Inv(t) && OthersKept(w, t, i)
  {
    assert SlotOk(w, i) && EchoSlotOk(w, i);
    var t := OnReadable(w, w.slots[i].fd, i, reply);
    if reply.Received? {
      var c := w.conns[w.slots[i].conn];
      ReadEffect(w, i, reply);
      ReplaceKeepsMirror(w, t, i, t.slots[i]);
      assert ConnOk(c);
      MoveKeepsEcho(w, t, i, t.slots[i], c.(received := c.received + [reply.data]));
      MoveKeepsLedger(w, t, i, t.slots[i], c.(received := c.received + [reply.data]));
    } else {
      FailEffect(w, i);
      DropKeepsMirror(w, t, i, t.slots[i]);
      DropKeepsEcho(w, i);
      DropKeepsLedger(w, i);
    }
  }

  lemma WriteKeepsInv(w: World, i: nat, reply: Reply)
    requires Inv(w) && i < MAX_EVENTS && w.slots[i].registered && w.slots[i].callback == SendData
    requires ReplyOk(w, i, reply)
    ensures var t := OnWritable(w, w.slots[i].fd, i, reply); Inv(t) && OthersKept(w, t, i)
  {
    assert SlotOk(w, i) && EchoSlotOk(w, i);
    var t := OnWritable(w, w.slots[i].fd, i, reply);
    if reply.Sent? {
      var c := w.conns[w.slots[i].conn];
      WriteEffect(w, i, reply);
      ReplaceKeepsMirror(w, t, i, t.slots[i]);
      assert ConnOk(c);
      MoveKeepsEcho(w, t, i, t.slots[i], c.(sent := c.sent + [w.slots[i].chunk[..reply.count]]));
      MoveKeepsLedger(w, t, i, t.slots[i], c.(sent := c.sent + [w.slots[i].chunk[..reply.count]]));
    } else {
      FailEffect(w, i);
      DropKeepsMirror(w, t, i, t.slots[i]);
      DropKeepsEcho(w, i);
      DropKeepsLedger(w, i);
    }
  }

  /** Whatever a registered slot's callback does, the invariant survives and no other
      registered slot changes. */
  lemma CallKeepsInv(w: World, s: SlotIndex, reply: Reply)
    requires Inv(w) && w.slots[s].registered && ReplyOk(w, s, reply)
    ensures w.slots[s].arg == s
    ensures Inv(Call(w, s, reply)) && OthersKept(w, Call(w, s, reply), s)
  {
    assert SlotOk(w, s);
    if s == MAX_EVENTS {
      AcceptKeepsInv(w, reply);
    } else if w.slots[s].callback == RecvData {
      ReadKeepsInv(w, s, reply);
    } else {
      WriteKeepsInv(w, s, reply);
    }
  }
}
