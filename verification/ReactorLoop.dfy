/**
 The reactor's main loop over whole runs: no event is dispatched to a slot that was reused
 since the wait, every slot is examined by the sweep in turn, and a client that stays idle is
 closed.
 */
module ReactorLoop {
  import opened Sockets
  import opened Reactor
  import opened ReactorSafety

  // ---------------------------------------------------------------- dispatch

  /** What `epoll_wait` may report: a slot the interest set points to, with requested bits. */
  ghost predicate Reported(w: World, e: Event) {
    exists fd ::
      && fd in w.interest
      && w.interest[fd].slot == e.slot
      && (e.readable ==> w.interest[fd].events == In)
      && (e.writable ==> w.interest[fd].events == Out)
  }

  /** No slot is reported twice in one batch. */
  predicate OncePerSlot(batch: seq<Event>) {
    forall i, j | 0 <= i < j < |batch| :: batch[i].slot != batch[j].slot
  }

  ghost predicate BatchOk(w: World, batch: seq<Event>) {
    OncePerSlot(batch) && forall i | 0 <= i < |batch| :: Reported(w, batch[i])
  }

  /** Each reported event comes with a reply the kernel can give at that point. */
  predicate RepliesOk(w: World, batch: seq<Event>)
    requires |w.slots| == MAX_EVENTS + 1
    decreases |batch|
  {
    batch == [] ||
    (&& (batch[0].readable ==> ReplyOk(w, batch[0].slot, batch[0].onRead))
     && (batch[0].writable ==> ReplyOk(w, batch[0].slot, batch[0].onWrite))
     && RepliesOk(DispatchOne(w, batch[0]), batch[1..]))
  }

  lemma ReportedIsRegistered(w: World, e: Event)
    requires Mirrored(w) && Reported(w, e)
    ensures w.slots[e.slot].registered
    ensures e.readable ==> w.slots[e.slot].events == In
    ensures e.writable ==> w.slots[e.slot].events == Out
  {
    var fd :| fd in w.interest && w.interest[fd].slot == e.slot
              && (e.readable ==> w.interest[fd].events == In)
              && (e.writable ==> w.interest[fd].events == Out);
    assert WatchOk(w, fd);
    assert SlotOk(w, e.slot);
  }

  lemma RegisteredIsReported(w: World, e: Event)
    requires Mirrored(w) && w.slots[e.slot].registered
    requires e.readable ==> w.slots[e.slot].events == In
    requires e.writable ==> w.slots[e.slot].events == Out
    ensures Reported(w, e)
  {
    assert SlotOk(w, e.slot);
    assert w.slots[e.slot].fd in w.interest;
  }

  /** An event fires at most one callback, and then that callback's slot is registered. */
  lemma DispatchOneCalls(w: World, e: Event)
    requires Inv(w) && Reported(w, e)
    ensures !(FiresRead(w, e) && FiresWrite(AfterRead(w, e), e))
    ensures DispatchOne(w, e) ==
              if FiresRead(w, e) then Call(w, e.slot, e.onRead)
              else if FiresWrite(w, e) then Call(w, e.slot, e.onWrite) else w
  {
    ReportedIsRegistered(w, e);
  }

  lemma DispatchOneKeepsInv(w: World, e: Event)
    requires Inv(w) && Reported(w, e) && RepliesOk(w, [e])
    ensures Inv(DispatchOne(w, e)) && OthersKept(w, DispatchOne(w, e), e.slot)
  {
    ReportedIsRegistered(w, e);
    DispatchOneCalls(w, e);
    if FiresRead(w, e) {
      CallKeepsInv(w, e.slot, e.onRead);
    } else if FiresWrite(w, e) {
      CallKeepsInv(w, e.slot, e.onWrite);
    }
  }

  /** The rest of the batch is as good after one of its events as before. */
  lemma BatchStaysOk(w: World, batch: seq<Event>)
    requires Inv(w) && batch != [] && BatchOk(w, batch) && RepliesOk(w, batch)
    ensures var t := DispatchOne(w, batch[0]);
            && Inv(t)
            && BatchOk(t, batch[1..])
            && RepliesOk(t, batch[1..])
            && forall j | 1 <= j < |batch| :: t.slots[batch[j].slot] == w.slots[batch[j].slot]
  {
    var t := DispatchOne(w, batch[0]);
    assert [batch[0]][1..] == [];
    DispatchOneKeepsInv(w, batch[0]);
    forall j | 1 <= j < |batch|
      ensures t.slots[batch[j].slot] == w.slots[batch[j].slot] && Reported(t, batch[j])
    {
      ReportedIsRegistered(w, batch[j]);
      RegisteredIsReported(t, batch[j]);
    }
    forall i | 0 <= i < |batch[1..]| ensures Reported(t, batch[1..][i]) {
      assert batch[1..][i] == batch[i + 1];
    }
  }

  /** No stale dispatch.  When event `k` of a batch is dispatched its slot is exactly what it
      was at the wait, still registered under the descriptor it had, and it fires at most one
      callback, whatever the callbacks before it closed, re-registered or accepted. */
  lemma {:induction false} NoStaleDispatch(w: World, batch: seq<Event>, k: nat)
    requires Inv(w) && BatchOk(w, batch) && RepliesOk(w, batch) && k < |batch|
    ensures var t, e := Dispatch(w, batch[..k]), batch[k];
            && Inv(t)
            && t.slots[e.slot] == w.slots[e.slot]
            && t.slots[e.slot].registered
            && t.slots[e.slot].fd in t.interest
            && t.interest[t.slots[e.slot].fd] == Watch(e.slot, t.slots[e.slot].events)
            && !(FiresRead(t, e) && FiresWrite(AfterRead(t, e), e))
    decreases |batch|
  {
    if k == 0 {
      assert batch[..0] == [];
      ReportedIsRegistered(w, batch[0]);
      assert SlotOk(w, batch[0].slot);
      DispatchOneCalls(w, batch[0]);
    } else {
      BatchStaysOk(w, batch);
      NoStaleDispatch(DispatchOne(w, batch[0]), batch[1..], k - 1);
      assert batch[..k][1..] == batch[1..][..k - 1];
      assert batch[1..][k - 1] == batch[k];
    }
  }

  lemma {:induction false} DispatchKeepsInv(w: World, batch: seq<Event>)
    requires Inv(w) && BatchOk(w, batch) && RepliesOk(w, batch)
    ensures Inv(Dispatch(w, batch))
    decreases |batch|
  {
    if batch != [] {
      BatchStaysOk(w, batch);
      DispatchKeepsInv(DispatchOne(w, batch[0]), batch[1..]);
    }
  }

  // ---------------------------------------------------------------- the sweep

  /** `checkpos` follows the count of checks around the table. */
  ghost predicate LoopInv(l: Loop) {
    Inv(l.world) && l.checkpos <= MAX_EVENTS && l.checkpos % MAX_EVENTS == l.checks % MAX_EVENTS
  }

  lemma CheckKeepsInv(w: World, pos: nat, now: int)
    requires Inv(w) && pos < MAX_EVENTS
    ensures Inv(CheckSlot(w, pos, now))
    ensures CheckSlot(w, pos, now) ==
              if w.slots[pos].registered && now - w.slots[pos].lastActive >= 60 then Dropped(w, pos) else w
  {
    if w.slots[pos].registered && now - w.slots[pos].lastActive >= 60 {
      var t := Dropped(w, pos);
      assert w.interest - {w.slots[pos].fd} - {w.slots[pos].fd} == w.interest - {w.slots[pos].fd};
      DropKeepsMirror(w, t, pos, t.slots[pos]);
      DropKeepsEcho(w, pos);
      DropKeepsLedger(w, pos);
    }
  }

  /** How often checks number `from` to `from + n - 1` examine slot `i`. */
  ghost function Times(from: nat, n: nat, i: nat): nat
    decreases n
  {
    if n == 0 then 0 else (if from % 1024 == i then 1 else 0) + Times(from + 1, n - 1, i)
  }

  /** What checks from number `from` on, at time `now`, make of slot `i`. */
  ghost function Swept(slot: Slot, examined: nat, now: int): Slot {
    if examined > 0 && slot.registered && now - slot.lastActive >= 60
    then slot.(registered := false) else slot
  }

  /** The position examined next is the number of the check around the table. */
  lemma NextPosition(checkpos: nat, checks: nat)
    requires checkpos <= MAX_EVENTS && checkpos % MAX_EVENTS == checks % MAX_EVENTS
    ensures var pos := if checkpos == MAX_EVENTS then 0 else checkpos;
            pos == checks % MAX_EVENTS && (pos + 1) % MAX_EVENTS == (checks + 1) % MAX_EVENTS
  {
  }

  lemma SweepOneIsExact(l: Loop, now: int)
    requires LoopInv(l)
    ensures var m := SweepOne(l, now);
            && LoopInv(m)
            && m.checks == l.checks + 1
            && m.world.conns == l.world.conns
            && m.world.slots[MAX_EVENTS] == l.world.slots[MAX_EVENTS]
            && forall i | 0 <= i < MAX_EVENTS ::
                 m.world.slots[i] ==
                 Swept(l.world.slots[i], if l.checks % MAX_EVENTS == i then 1 else 0, now)
  {
    NextPosition(l.checkpos, l.checks);
    CheckKeepsInv(l.world, if l.checkpos == MAX_EVENTS then 0 else l.checkpos, now);
  }

  lemma {:induction false} SweepKeepsInv(l: Loop, now: int, n: nat)
    requires LoopInv(l)
    ensures var m := Sweep(l, now, n);
            && LoopInv(m)
            && m.checks == l.checks + n
            && m.world.conns == l.world.conns
            && m.world.slots[MAX_EVENTS] == l.world.slots[MAX_EVENTS]
    decreases n
  {
    if n > 0 {
      SweepOneIsExact(l, now);
      SweepKeepsInv(SweepOne(l, now), now, n - 1);
    }
  }

  lemma {:induction false} SweepOfSlot(l: Loop, now: int, n: nat, i: nat)
    requires LoopInv(l) && i < MAX_EVENTS
    ensures Sweep(l, now, n).world.slots[i] == Swept(l.world.slots[i], Times(l.checks, n, i), now)
    decreases n
  {
    if n > 0 {
      SweepOneIsExact(l, now);
      SweepOfSlot(SweepOne(l, now), now, n - 1, i);
    }
  }

  /** Check number k examines slot k mod `MAX_EVENTS` and no other; it closes that slot exactly
      when it has been idle for the timeout.  The listening slot is never examined. */
  lemma SweepIsExact(l: Loop, now: int, n: nat)
    requires LoopInv(l)
    ensures var m := Sweep(l, now, n);
            && LoopInv(m)
            && m.checks == l.checks + n
            && m.world.conns == l.world.conns
            && m.world.slots[MAX_EVENTS] == l.world.slots[MAX_EVENTS]
            && forall i | 0 <= i < MAX_EVENTS ::
                 m.world.slots[i] == Swept(l.world.slots[i], Times(l.checks, n, i), now)
  {
    SweepKeepsInv(l, now, n);
    forall i | 0 <= i < MAX_EVENTS
      ensures Sweep(l, now, n).world.slots[i] == Swept(l.world.slots[i], Times(l.checks, n, i), now)
    {
      SweepOfSlot(l, now, n, i);
    }
  }

  // ---------------------------------------------------------------- coverage

  lemma {:induction false} TimesSplit(from: nat, a: nat, b: nat, i: nat)
    ensures Times(from, a + b, i) == Times(from, a, i) + Times(from + a, b, i)
    decreases a
  {
    if a > 0 {
      TimesSplit(from + 1, a - 1, b, i);
    }
  }

  lemma {:induction false} TimesFirstTurn(from: nat, i: nat)
    requires from <= MAX_EVENTS && i < MAX_EVENTS
    ensures Times(from, MAX_EVENTS - from, i) == if from <= i then 1 else 0
    decreases MAX_EVENTS - from
  {
    if from < MAX_EVENTS {
      TimesFirstTurn(from + 1, i);
    }
  }

  /** Checks a full turn apart examine the same slot. */
  lemma OneTurnOn(x: nat)
    ensures (x + MAX_EVENTS) % MAX_EVENTS == x % MAX_EVENTS
  {
  }

  lemma TimesShift(from: nat, i: nat)
    ensures Times(from + 1, MAX_EVENTS, i) == Times(from, MAX_EVENTS, i)
  {
    TimesSplit(from + 1, MAX_EVENTS - 1, 1, i);
    OneTurnOn(from);
    assert Times(from + 1 + (MAX_EVENTS - 1), 1, i) == if from % MAX_EVENTS == i then 1 else 0;
  }

  /** Any full turn examines every client slot once. */
  lemma {:induction false} TimesPerTurn(from: nat, i: nat)
    requires i < MAX_EVENTS
    ensures Times(from, MAX_EVENTS, i) == 1
    decreases from
  {
    if from == 0 {
      TimesFirstTurn(0, i);
    } else {
      TimesPerTurn(from - 1, i);
      TimesShift(from - 1, i);
    }
  }

  /** How often `passes` consecutive passes examine slot `i`. */
  ghost function PassTimes(from: nat, perPass: nat, passes: nat, i: nat): nat
    decreases passes
  {
    if passes == 0 then 0
    else Times(from, perPass, i) + PassTimes(from + perPass, perPass, passes - 1, i)
  }

  lemma LaterPasses(from: nat, perPass: nat, passes: nat, i: nat)
    requires PassTimes(from, perPass, passes, i) > 0 && Times(from, perPass, i) == 0
    ensures passes > 0 && PassTimes(from + perPass, perPass, passes - 1, i) > 0
  {
  }

  lemma {:induction false} PassTimesAreTimes(from: nat, perPass: nat, passes: nat, i: nat)
    ensures PassTimes(from, perPass, passes, i) == Times(from, perPass * passes, i)
    decreases passes
  {
    if passes > 0 {
      PassTimesAreTimes(from + perPass, perPass, passes - 1, i);
      TimesSplit(from, perPass, perPass * (passes - 1), i);
      assert perPass + perPass * (passes - 1) == perPass * passes;
    }
  }

  /** Any eleven consecutive passes examine every client slot once or twice. */
  lemma ElevenPassesCover(from: nat, i: nat)
    requires i < 1024
    ensures 1 <= PassTimes(from, 100, 11, i) <= 2
  {
    PassTimesAreTimes(from, 100, 11, i);
    TimesSplit(from, MAX_EVENTS, 76, i);
    TimesSplit(from + MAX_EVENTS, 76, MAX_EVENTS - 76, i);
    TimesPerTurn(from, i);
    TimesPerTurn(from + MAX_EVENTS, i);
  }

  // ---------------------------------------------------------------- whole runs

  ghost predicate InputOk(l: Loop, input: Input, perPass: nat)
    requires |l.world.slots| == MAX_EVENTS + 1 && l.checkpos <= MAX_EVENTS
  {
    var swept := Sweep(l, input.now, perPass).world;
    BatchOk(swept, input.batch) && RepliesOk(swept, input.batch)
  }

  ghost predicate RunOk(l: Loop, inputs: seq<Input>, perPass: nat)
    requires |l.world.slots| == MAX_EVENTS + 1 && l.checkpos <= MAX_EVENTS
    decreases |inputs|
  {
    inputs == [] || (InputOk(l, inputs[0], perPass) && RunOk(Pass(l, inputs[0], perPass), inputs[1..], perPass))
  }

  lemma PassKeepsInv(l: Loop, input: Input, perPass: nat)
    requires LoopInv(l) && InputOk(l, input, perPass)
    ensures LoopInv(Pass(l, input, perPass)) && Pass(l, input, perPass).checks == l.checks + perPass
  {
    SweepIsExact(l, input.now, perPass);
    DispatchKeepsInv(Sweep(l, input.now, perPass).world, input.batch);
  }

  lemma {:induction false} RunKeepsInv(l: Loop, inputs: seq<Input>, perPass: nat)
    requires LoopInv(l) && RunOk(l, inputs, perPass)
    ensures LoopInv(Run(l, inputs, perPass))
    decreases |inputs|
  {
    if inputs != [] {
      PassKeepsInv(l, inputs[0], perPass);
      RunKeepsInv(Pass(l, inputs[0], perPass), inputs[1..], perPass);
    }
  }

  lemma StartInv(lfd: int, open: set<int>, now: int)
    requires lfd in open
    ensures LoopInv(Loop(Start(lfd, open, now), 0, 0))
  {
    var w := Start(lfd, open, now);
    forall i | 0 <= i < |w.slots| ensures SlotOk(w, i) && EchoSlotOk(w, i) {
    }
    forall fd | fd in w.interest ensures WatchOk(w, fd) {
    }
  }

  /** The registration invariant, the echo discipline and the fate of every connection over
      every run of the program. */
  lemma EveryRunIsSafe(lfd: int, open: set<int>, now: int, inputs: seq<Input>)
    requires lfd in open && RunOk(Loop(Start(lfd, open, now), 0, 0), inputs, CHECKS_PER_PASS)
    ensures var w := Run(Loop(Start(lfd, open, now), 0, 0), inputs, CHECKS_PER_PASS).world;
            && Mirrored(w)
            && EchoOk(w)
            && LedgerOk(w)
  {
    StartInv(lfd, open, now);
    RunKeepsInv(Loop(Start(lfd, open, now), 0, 0), inputs, CHECKS_PER_PASS);
  }

  /** No stale dispatch at any point of any run of the program: take any run, one more pass,
      and any event of its batch. */
  lemma EveryDispatchIsFresh(lfd: int, open: set<int>, start: int, inputs: seq<Input>, input: Input, k: nat)
    requires var l := Loop(Start(lfd, open, start), 0, 0);
             && lfd in open
             && RunOk(l, inputs, CHECKS_PER_PASS)
             && InputOk(Run(l, inputs, CHECKS_PER_PASS), input, CHECKS_PER_PASS)
    requires k < |input.batch|
    ensures var l := Run(Loop(Start(lfd, open, start), 0, 0), inputs, CHECKS_PER_PASS);
            var waited := Sweep(l, input.now, CHECKS_PER_PASS).world;
            var t, e := Dispatch(waited, input.batch[..k]), input.batch[k];
            && t.slots[e.slot] == waited.slots[e.slot]
            && t.slots[e.slot].registered
            && !(FiresRead(t, e) && FiresWrite(AfterRead(t, e), e))
  {
    var l := Loop(Start(lfd, open, start), 0, 0);
    StartInv(lfd, open, start);
    RunKeepsInv(l, inputs, CHECKS_PER_PASS);
    SweepIsExact(Run(l, inputs, CHECKS_PER_PASS), input.now, CHECKS_PER_PASS);
    NoStaleDispatch(Sweep(Run(l, inputs, CHECKS_PER_PASS), input.now, CHECKS_PER_PASS).world, input.batch, k);
  }

  /** A client whose chunk was moved at time `reply.now` survives, with its descriptor and its
      connection, every sweep less than the timeout later. */
  lemma ActiveClientSurvives(w: World, s: SlotIndex, reply: Reply, l: Loop, now: int, n: nat)
    requires Inv(w) && s < MAX_EVENTS && w.slots[s].registered
    requires ReplyOk(w, s, reply) && (reply.Received? || reply.Sent?)
    requires LoopInv(l) && l.world == Call(w, s, reply) && now - reply.now < 60
    ensures var t := Sweep(l, now, n).world;
            t.slots[s].registered && t.slots[s].fd == w.slots[s].fd && t.slots[s].conn == w.slots[s].conn
  {
    assert SlotOk(w, s) && EchoSlotOk(w, s);
    if reply.Received? {
      ReadEffect(w, s, reply);
    } else {
      WriteEffect(w, s, reply);
    }
    SweepIsExact(l, now, n);
  }

  // ---------------------------------------------------------------- idle clients

  ghost predicate Alive(w: World, i: nat, c: nat) {
    i < MAX_EVENTS < |w.slots| && w.slots[i].registered && w.slots[i].conn == c
  }

  /** How many chunks a connection has had moved, either way. */
  ghost function Activity(w: World, c: nat): nat
    requires c < |w.conns|
  {
    |w.conns[c].received| + |w.conns[c].sent|
  }

  /** Connection `c` was left alone between `w` and `t`: if it is still in slot `i`, that slot
      has not changed. */
  ghost predicate LeftAlone(w: World, t: World, i: nat, c: nat) {
    && c < |w.conns| <= |t.conns|
    && Activity(w, c) <= Activity(t, c)
    && (Alive(t, i, c) && Activity(t, c) == Activity(w, c) ==>
          i < |w.slots| && t.slots[i] == w.slots[i])
  }

  lemma LeftAloneOn(u: World, v: World, w: World, i: nat, c: nat)
    requires LeftAlone(u, v, i, c) && LeftAlone(v, w, i, c) && |v.slots| == MAX_EVENTS + 1
    ensures LeftAlone(u, w, i, c)
  {
  }

  lemma CallLeavesAlone(w: World, s: SlotIndex, reply: Reply, i: nat, c: nat)
    requires Inv(w) && w.slots[s].registered && ReplyOk(w, s, reply)
    requires i < MAX_EVENTS && c < |w.conns|
    ensures LeftAlone(w, Call(w, s, reply), i, c)
  {
    assert SlotOk(w, s) && EchoSlotOk(w, s);
    if s == MAX_EVENTS {
      if reply.Accepted? { AcceptEffect(w, reply); }
    } else if reply == Failed {
      FailEffect(w, s);
    } else if w.slots[s].callback == RecvData {
      ReadEffect(w, s, reply);
    } else {
      WriteEffect(w, s, reply);
    }
  }

  lemma {:induction false} DispatchLeavesAlone(w: World, batch: seq<Event>, i: nat, c: nat)
    requires Inv(w) && BatchOk(w, batch) && RepliesOk(w, batch)
    requires i < MAX_EVENTS && c < |w.conns|
    ensures LeftAlone(w, Dispatch(w, batch), i, c)
    decreases |batch|
  {
    if batch != [] {
      var e, t := batch[0], DispatchOne(w, batch[0]);
      ReportedIsRegistered(w, e);
      DispatchOneCalls(w, e);
      if FiresRead(w, e) {
        CallLeavesAlone(w, e.slot, e.onRead, i, c);
      } else if FiresWrite(w, e) {
        CallLeavesAlone(w, e.slot, e.onWrite, i, c);
      }
      BatchStaysOk(w, batch);
      DispatchLeavesAlone(t, batch[1..], i, c);
      LeftAloneOn(w, t, Dispatch(w, batch), i, c);
    }
  }

  lemma SweepLeavesAlone(l: Loop, now: int, perPass: nat, i: nat, c: nat)
    requires LoopInv(l) && i < MAX_EVENTS && c < |l.world.conns|
    ensures var t := Sweep(l, now, perPass).world;
            && LeftAlone(l.world, t, i, c)
            && (Alive(t, i, c) && Times(l.checks, perPass, i) > 0 ==>
                  now - l.world.slots[i].lastActive < 60)
  {
    SweepIsExact(l, now, perPass);
  }

  /** A pass leaves an idle client alone, and closes it when its slot's turn comes too late. */
  lemma PassLeavesAlone(l: Loop, input: Input, perPass: nat, i: nat, c: nat)
    requires LoopInv(l) && InputOk(l, input, perPass) && i < MAX_EVENTS && c < |l.world.conns|
    ensures LeftAlone(l.world, Pass(l, input, perPass).world, i, c)
    ensures var t := Pass(l, input, perPass).world;
            Alive(t, i, c) && Activity(t, c) == Activity(l.world, c) && Times(l.checks, perPass, i) > 0 ==>
              input.now - l.world.slots[i].lastActive < 60
  {
    var swept := Sweep(l, input.now, perPass).world;
    SweepIsExact(l, input.now, perPass);
    SweepLeavesAlone(l, input.now, perPass, i, c);
    DispatchLeavesAlone(swept, input.batch, i, c);
    LeftAloneOn(l.world, swept, Pass(l, input, perPass).world, i, c);
  }

  /** Some pass came less than the timeout after `lastActive`. */
  ghost predicate SeenInTime(inputs: seq<Input>, lastActive: int) {
    exists p :: 0 <= p < |inputs| && inputs[p].now - lastActive < 60
  }

  lemma SeenLater(inputs: seq<Input>, lastActive: int)
    requires inputs != [] && SeenInTime(inputs[1..], lastActive)
    ensures SeenInTime(inputs, lastActive)
  {
    var p :| 0 <= p < |inputs[1..]| && inputs[1..][p].now - lastActive < 60;
    assert inputs[p + 1] == inputs[1..][p];
  }

  /** Connection `c` is still in slot `i` at the end of the run, without traffic since. */
  ghost predicate SurvivesIdle(l: Loop, inputs: seq<Input>, perPass: nat, i: nat, c: nat)
    requires |l.world.slots| == MAX_EVENTS + 1 && l.checkpos <= MAX_EVENTS && c < |l.world.conns|
  {
    var t := Run(l, inputs, perPass).world;
    Alive(t, i, c) && c < |t.conns| && Activity(t, c) == Activity(l.world, c)
  }

  lemma {:induction false} RunLeavesAlone(l: Loop, inputs: seq<Input>, perPass: nat, i: nat, c: nat)
    requires LoopInv(l) && RunOk(l, inputs, perPass) && i < MAX_EVENTS && c < |l.world.conns|
    ensures LeftAlone(l.world, Run(l, inputs, perPass).world, i, c)
    decreases |inputs|
  {
    if inputs != [] {
      var next := Pass(l, inputs[0], perPass);
      PassKeepsInv(l, inputs[0], perPass);
      PassLeavesAlone(l, inputs[0], perPass, i, c);
      RunLeavesAlone(next, inputs[1..], perPass, i, c);
      LeftAloneOn(l.world, next.world, Run(l, inputs, perPass).world, i, c);
    }
  }

  /** A survivor of the whole run survives each pass of it. */
  lemma SurvivesFirstPass(l: Loop, inputs: seq<Input>, perPass: nat, i: nat, c: nat)
    requires LoopInv(l) && RunOk(l, inputs, perPass) && i < MAX_EVENTS && c < |l.world.conns| && inputs != []
    requires SurvivesIdle(l, inputs, perPass, i, c)
    ensures var next := Pass(l, inputs[0], perPass);
            && LoopInv(next) && RunOk(next, inputs[1..], perPass) && c < |next.world.conns|
            && next.checks == l.checks + perPass
            && SurvivesIdle(next, inputs[1..], perPass, i, c)
            && next.world.slots[i] == l.world.slots[i]
    ensures Times(l.checks, perPass, i) > 0 ==> inputs[0].now - l.world.slots[i].lastActive < 60
  {
    PassKeepsInv(l, inputs[0], perPass);
    PassLeavesAlone(l, inputs[0], perPass, i, c);
    RunLeavesAlone(Pass(l, inputs[0], perPass), inputs[1..], perPass, i, c);
  }

  /** Over any run: a client that survives it without traffic, although its slot was examined,
      was seen in time. */
  lemma {:induction false} SurvivorWasSeen(l: Loop, inputs: seq<Input>, perPass: nat, i: nat, c: nat)
    requires LoopInv(l) && RunOk(l, inputs, perPass) && i < MAX_EVENTS && c < |l.world.conns|
    requires SurvivesIdle(l, inputs, perPass, i, c) && PassTimes(l.checks, perPass, |inputs|, i) > 0
    ensures SeenInTime(inputs, l.world.slots[i].lastActive)
    decreases |inputs|
  {
    if inputs != [] {
      var next, later := Pass(l, inputs[0], perPass), inputs[1..];
      SurvivesFirstPass(l, inputs, perPass, i, c);
      if Times(l.checks, perPass, i) == 0 {
        LaterPasses(l.checks, perPass, |inputs|, i);
        assert PassTimes(next.checks, perPass, |later|, i) > 0;
        SurvivorWasSeen(next, later, perPass, i, c);
        SeenLater(inputs, l.world.slots[i].lastActive);
      }
    }
  }

  lemma NowhereIsClosed(w: World, c: nat)
    requires LedgerOk(w) && c < |w.conns| && forall j :: !Alive(w, j, c)
    ensures c in w.closed
  {
    if InSomeSlot(w, c) {
      var i :| 0 <= i < MAX_EVENTS && w.slots[i].registered && w.slots[i].conn == c;
      assert Alive(w, i, c);
    }
  }

  lemma SurvivorWasOnTime(l: Loop, inputs: seq<Input>, i: nat, j: nat, c: nat)
    requires LoopInv(l) && RunOk(l, inputs, CHECKS_PER_PASS) && |inputs| == 11
    requires c < |l.world.conns| && Alive(l.world, i, c) && j < MAX_EVENTS
    requires SurvivesIdle(l, inputs, CHECKS_PER_PASS, j, c)
    ensures SeenInTime(inputs, l.world.slots[i].lastActive)
  {
    ElevenPassesCover(l.checks, j);
    SurvivorWasSeen(l, inputs, CHECKS_PER_PASS, j, c);
    RunLeavesAlone(l, inputs, CHECKS_PER_PASS, j, c);
    assert SameConn(l.world, i, j);
  }

  /** A client that stays idle for the timeout throughout eleven consecutive passes is gone: its
      descriptor was closed and no slot holds its connection. */
  lemma IdleClientIsClosed(l: Loop, inputs: seq<Input>, i: nat, c: nat)
    requires LoopInv(l) && RunOk(l, inputs, CHECKS_PER_PASS) && |inputs| == 11
    requires c < |l.world.conns| && Alive(l.world, i, c)
    requires forall p | 0 <= p < |inputs| :: inputs[p].now - l.world.slots[i].lastActive >= 60
    requires var t := Run(l, inputs, CHECKS_PER_PASS).world; c < |t.conns| && Activity(t, c) == Activity(l.world, c)
    ensures c in Run(l, inputs, CHECKS_PER_PASS).world.closed
    ensures forall j :: !Alive(Run(l, inputs, CHECKS_PER_PASS).world, j, c)
  {
    var t := Run(l, inputs, CHECKS_PER_PASS).world;
    forall j ensures !Alive(t, j, c) {
      if Alive(t, j, c) {
        SurvivorWasOnTime(l, inputs, i, j, c);
      }
    }
    RunKeepsInv(l, inputs, CHECKS_PER_PASS);
    NowhereIsClosed(t, c);
  }

  // ---------------------------------------------------------------- echo totals

  lemma {:induction false} JoinedSplit(chunks: seq<seq<Byte>>, k: nat)
    requires k <= |chunks|
    ensures Joined(chunks) == Joined(chunks[..k]) + Joined(chunks[k..])
  {
    if k == 0 {
      assert chunks[0..] == chunks;
    } else {
      JoinedSplit(chunks[1..], k - 1);
      assert chunks[..k][1..] == chunks[1..][..k - 1];
      assert chunks[1..][k - 1..] == chunks[k..];
    }
  }

  /** If every send takes its whole chunk, a connection's output is its input up to at most one
      pending chunk. */
  lemma EchoIsComplete(w: World, c: nat)
    requires EchoOk(w) && c < |w.conns|
    requires forall k | 0 <= k < |w.conns[c].sent| ::
               |w.conns[c].sent[k]| == |ReceivedAt(w.conns[c], k)|
    ensures var conn := w.conns[c];
            var pending := conn.received[|conn.sent|..];
            |pending| <= 1 && Joined(conn.received) == Joined(conn.sent) + Joined(pending)
  {
    var conn := w.conns[c];
    assert ConnOk(conn);
    JoinedSplit(conn.received, |conn.sent|);
    forall k | 0 <= k < |conn.sent| ensures conn.sent[k] == conn.received[k] {
      assert |conn.sent[k]| == |ReceivedAt(conn, k)|;
    }
    assert conn.received[..|conn.sent|] == conn.sent;
  }

  function ReceivedAt(conn: Conn, k: nat): seq<Byte> {
    if k < |conn.received| then conn.received[k] else []
  }
}
