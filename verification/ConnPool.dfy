/**
 The client connection pool (poolsocket.c): a stack of connected descriptors that callers
 borrow and return; a connection returned as broken is replaced or lost.
 */
module ConnPool {

  const SCK_OK := 0
  const SCK_ERR_CREATE_CONN := 3020
  const SCK_ERR_REJECTED := 3022   // nothing to lend, already present, and full share this code

  /** What `sckClient_connect` does: a descriptor, or a nonzero code. */
  datatype Connect = Connected(fd: nat) | Refused(code: int)

  /** The descriptor a connect yields, if it yields one. */
  function Fresh(c: Connect): seq<int> {
    if c.Connected? then [c.fd] else []
  }

  predicate ConnectOk(c: Connect) {
    c.Connected? || (c.code != SCK_OK && c.code != SCK_ERR_REJECTED)
  }

  // ---------------------------------------------------------------- the handle

  datatype Handle = Handle(fds: seq<int>, statuses: seq<int>, valid: int)

  predicate InBounds(h: Handle) {
    |h.fds| == |h.statuses| && 0 <= h.valid <= |h.fds|
  }

  /** The descriptors in the pool; the last one is lent next. */
  function Idle(h: Handle): seq<int>
    requires InBounds(h)
  {
    h.fds[..h.valid]
  }

  /** `sckCltPool_getConnet`, with what reconnecting would give: the handle, the code, and the
      descriptor when the code is zero. */
  function Get(h: Handle, again: Connect): (Handle, int, int)
    requires InBounds(h)
  {
    if h.valid == 0 then (h, SCK_ERR_REJECTED, 0)
    else
      var top := h.valid - 1;
      if h.statuses[top] != 0 then (h.(valid := top), SCK_OK, h.fds[top])
      else
        match again
        case Connected(fd) => (h.(fds := h.fds[top := fd], valid := top), SCK_OK, fd)
        case Refused(code) => (h.(fds := h.fds[top := 0]), code, 0)
  }

  function Push(h: Handle, fd: int): Handle
    requires InBounds(h) && h.valid < |h.fds|
  {
    Handle(h.fds[h.valid := fd], h.statuses[h.valid := 1], h.valid + 1)
  }

  /** What `sckCltPool_putConnet` leaves: the handle, its code, and the descriptor it closed
      (none or one). */
  datatype PutResult = PutResult(h: Handle, code: int, closed: seq<int>)

  /** `sckCltPool_putConnet`. */
  function Put(h: Handle, fd: int, flag: int, again: Connect): PutResult
    requires InBounds(h)
  {
    if fd in Idle(h) || h.valid >= |h.fds| then PutResult(h, SCK_ERR_REJECTED, [])
    else if flag == 1 then PutResult(Push(h, fd), SCK_OK, [])
    else
      match again
      case Connected(newFd) => PutResult(Push(h, newFd), SCK_OK, [fd])
      case Refused(code) => PutResult(h, code, [fd])
  }

  /** The handle in memory. */
  class Pool {
    const fdArray: array<int>
    const statusArray: array<int>
    var valid: int

    ghost predicate Valid()
      reads this, fdArray, statusArray
    {
      InBounds(View()) && fdArray != statusArray
    }

    ghost function View(): Handle
      reads this, fdArray, statusArray
    {
      Handle(fdArray[..], statusArray[..], valid)
    }

    /** Freshly allocated arrays hold whatever was there before. */
    constructor (rawFds: seq<int>, rawStatuses: seq<int>)
      requires |rawFds| == |rawStatuses|
      ensures Valid() && fresh(fdArray) && fresh(statusArray)
      ensures View() == Handle(rawFds, rawStatuses, 0)
    {
      fdArray := new int[|rawFds|](i requires 0 <= i < |rawFds| => rawFds[i]);
      statusArray := new int[|rawFds|](i requires 0 <= i < |rawFds| => rawStatuses[i]);
      valid := 0;
    }

    method GetConnet(again: Connect) returns (ret: int, connfd: int)
      requires Valid()
      modifies this`valid, fdArray
      ensures Valid() && (View(), ret, connfd) == Get(old(View()), again)
      ensures old(valid) == 0 ==> ret == SCK_ERR_REJECTED && View() == old(View())
      ensures old(valid) > 0 && old(statusArray[valid - 1]) != 0 ==>
                ret == SCK_OK && old(Idle(View())) == Idle(View()) + [connfd]
      ensures old(valid) > 0 && old(statusArray[valid - 1]) == 0 && again.Connected? ==>
                ret == SCK_OK && connfd == again.fd && Idle(View()) == old(Idle(View()))[..old(valid) - 1]
      ensures old(valid) > 0 && old(statusArray[valid - 1]) == 0 && again.Refused? ==>
                ret == again.code && Idle(View()) == old(Idle(View()))[old(valid) - 1 := 0]
    {
      connfd := 0;
      if valid == 0 {
        return SCK_ERR_REJECTED, connfd;
      }
      if statusArray[valid - 1] == 0 {
        match again {
          case Connected(fd) =>
            fdArray[valid - 1] := fd;
          case Refused(code) =>
            fdArray[valid - 1] := 0;
            return code, connfd;
        }
      }
      valid := valid - 1;
      connfd := fdArray[valid];
      ret := SCK_OK;
    }

    /** The connecting loop of `sckCltPool_init`, which stops at the first refusal. */
    method ConnectAll(connects: seq<Connect>)
      requires Valid() && valid == 0 && |connects| == fdArray.Length
      modifies this`valid, fdArray, statusArray
      ensures Valid() && valid <= |connects|
      ensures valid < |connects| ==> connects[valid].Refused?
      ensures forall k | 0 <= k < valid :: connects[k].Connected? && fdArray[k] == connects[k].fd
      ensures forall k | 0 <= k < |connects| :: statusArray[k] == if k < valid then 1 else old(statusArray[k])
    {
      var i := 0;
      while i < |connects| && connects[i].Connected?
        invariant 0 <= i <= |connects| && Valid() && valid == i
        invariant forall k | 0 <= k < i :: connects[k].Connected? && fdArray[k] == connects[k].fd
        invariant forall k | 0 <= k < |connects| :: statusArray[k] == if k < i then 1 else old(statusArray[k])
      {
        fdArray[i] := connects[i].fd;
        statusArray[i] := 1;
        valid := valid + 1;
        i := i + 1;
      }
    }

    /** The clean-up loop, with the descriptors it closes. */
    method CloseMarked() returns (closed: seq<int>)
      requires Valid()
      ensures closed == Marked(fdArray[..], statusArray[..], 0)
    {
      closed := [];
      var i := 0;
      while i < fdArray.Length
        invariant 0 <= i <= fdArray.Length
        invariant closed + Marked(fdArray[..], statusArray[..], i) == Marked(fdArray[..], statusArray[..], 0)
      {
        if statusArray[i] == 1 {
          closed := closed + [fdArray[i]];
        }
        i := i + 1;
      }
    }

    method PutConnet(connfd: nat, validFlag: int, again: Connect) returns (ret: int, closed: seq<int>)
      requires Valid()
      modifies this`valid, fdArray, statusArray
      ensures Valid() && PutResult(View(), ret, closed) == Put(old(View()), connfd, validFlag, again)
      ensures if connfd in old(Idle(View())) || old(valid) == fdArray.Length
              then ret == SCK_ERR_REJECTED && View() == old(View()) && closed == []
              else if validFlag == 1
              then ret == SCK_OK && Idle(View()) == old(Idle(View())) + [connfd] && closed == []
              else && ret == (if again.Connected? then SCK_OK else again.code)
                   && closed == [connfd]
                   && Idle(View()) == old(Idle(View())) + Fresh(again)
    {
      closed := [];
      var i := 0;
      while i < valid
        invariant 0 <= i <= valid
        invariant connfd !in fdArray[..i]
      {
        if fdArray[i] == connfd {
          return SCK_ERR_REJECTED, closed;
        }
        i := i + 1;
      }
      if valid >= fdArray.Length {
        return SCK_ERR_REJECTED, closed;
      }
      var kept := connfd;
      if validFlag != 1 {
        closed := [connfd];
        match again {
          case Refused(code) => return code, closed;
          case Connected(fd) => kept := fd;
        }
      }
      fdArray[valid] := kept;
      statusArray[valid] := 1;
      valid := valid + 1;
      ret := SCK_OK;
    }
  }

  /** The descriptors of a run of successful connects. */
  function Opened(connects: seq<Connect>): (fds: seq<int>)
    requires forall i | 0 <= i < |connects| :: connects[i].Connected?
  {
    seq(|connects|, i requires 0 <= i < |connects| => connects[i].fd)
  }

  /** What the clean-up loop of a failed `sckCltPool_init` closes from cell `i` on: every cell
      marked good. */
  function Marked(fds: seq<int>, statuses: seq<int>, i: nat): seq<int>
    requires i <= |fds| == |statuses|
    decreases |fds| - i
  {
    if i == |fds| then []
    else (if statuses[i] == 1 then [fds[i]] else []) + Marked(fds, statuses, i + 1)
  }

  lemma {:induction false} MarkedFirst(fds: seq<int>, statuses: seq<int>, i: nat, k: nat)
    requires i <= k <= |fds| == |statuses| && forall j | i <= j < k :: statuses[j] == 1
    ensures Marked(fds, statuses, i) == fds[i..k] + Marked(fds, statuses, k)
    decreases k - i
  {
    if i == k {
      assert fds[i..k] == [];
    } else {
      MarkedFirst(fds, statuses, i + 1, k);
      Prepend(fds, i, k, Marked(fds, statuses, k));
    }
  }

  lemma Prepend(fds: seq<int>, i: nat, k: nat, later: seq<int>)
    requires i < k <= |fds|
    ensures [fds[i]] + (fds[i + 1..k] + later) == fds[i..k] + later
  {
    assert fds[i..k] == [fds[i]] + fds[i + 1..k];
  }

  lemma {:induction false} MarkedNone(fds: seq<int>, statuses: seq<int>, i: nat)
    requires i <= |fds| == |statuses|
    ensures Marked(fds, statuses, i) == [] <==> forall j | i <= j < |fds| :: statuses[j] != 1
    decreases |fds| - i
  {
    if i < |fds| {
      MarkedNone(fds, statuses, i + 1);
    }
  }

  /** The clean-up closes everything that was opened, and nothing else exactly when no cell the
      failed set-up never wrote happens to hold the mark. */
  lemma CleanUpIsExact(fds: seq<int>, statuses: seq<int>, k: nat)
    requires k <= |fds| == |statuses| && forall i | 0 <= i < k :: statuses[i] == 1
    ensures fds[..k] <= Marked(fds, statuses, 0)
    ensures Marked(fds, statuses, 0) == fds[..k] <==> forall i | k <= i < |fds| :: statuses[i] != 1
  {
    MarkedFirst(fds, statuses, 0, k);
    MarkedNone(fds, statuses, k);
    assert |Marked(fds, statuses, 0)| == k + |Marked(fds, statuses, k)|;
  }

  /** `sckCltPool_init`: it succeeds exactly when every connection does, and then all of them
      are idle, in order.  Otherwise it stops at the first refusal and closes every connection
      it opened, but also cells it never wrote if they hold the mark by accident. */
  method Init(connects: seq<Connect>, rawFds: seq<int>, rawStatuses: seq<int>)
    returns (ret: int, pool: Pool, closed: seq<int>)
    requires |connects| == |rawFds| == |rawStatuses|
    ensures fresh(pool) && pool.Valid()
    ensures ret == SCK_OK <==> forall i | 0 <= i < |connects| :: connects[i].Connected?
    ensures ret == SCK_OK ==> pool.View() == Full(connects) && closed == []
    ensures ret != SCK_OK ==>
              && ret == SCK_ERR_CREATE_CONN
              && pool.valid < |connects| && connects[pool.valid].Refused?
              && (forall i | 0 <= i < pool.valid :: connects[i].Connected?)
              && Opened(connects[..pool.valid]) <= closed
              && (closed == Opened(connects[..pool.valid]) <==>
                    forall i | pool.valid <= i < |connects| :: rawStatuses[i] != 1)
  {
    pool := new Pool(rawFds, rawStatuses);
    closed := [];
    pool.ConnectAll(connects);
    ret := SCK_OK;
    if pool.valid < |connects| {
      ret := SCK_ERR_CREATE_CONN;
      closed := pool.CloseMarked();
      CleanUpIsExact(pool.fdArray[..], pool.statusArray[..], pool.valid);
      assert pool.fdArray[..][..pool.valid] == Opened(connects[..pool.valid]);
    }
  }

  function Full(connects: seq<Connect>): Handle {
    Handle(seq(|connects|, i requires 0 <= i < |connects| =>
                 if connects[i].Connected? then connects[i].fd else 0),
           seq(|connects|, _ => 1), |connects|)
  }

  // ---------------------------------------------------------------- callers

  /** The handle, the descriptors callers hold, how many were lost to failed reconnects, and the
      history: every descriptor a connect yielded and every one that was closed. */
  datatype State = State(h: Handle, lent: set<int>, lost: nat, made: seq<int>, closed: seq<int>)

  datatype Step = Borrow(again: Connect) | Return(fd: int, flag: int, again: Connect)

  /** Callers return only what they hold, and a connect never yields a descriptor in use. */
  predicate Enabled(s: State, step: Step)
    requires InBounds(s.h)
  {
    match step
    case Borrow(_) => true
    case Return(fd, _, again) =>
      && fd in s.lent
      && ConnectOk(again)
      && (again.Connected? ==> again.fd !in Idle(s.h) && again.fd !in s.lent - {fd})
  }

  function Apply(s: State, step: Step): State
    requires InBounds(s.h) && Enabled(s, step)
  {
    match step
    case Borrow(again) =>
      var (h, ret, fd) := Get(s.h, again);
      s.(h := h, lent := if ret == SCK_OK then s.lent + {fd} else s.lent)
    case Return(fd, flag, again) =>
      var PutResult(h, ret, closed) := Put(s.h, fd, flag, again);
      s.(h := h,
         lent := if ret == SCK_ERR_REJECTED then s.lent else s.lent - {fd},
         lost := s.lost + if ret == SCK_OK || ret == SCK_ERR_REJECTED then 0 else 1,
         made := if closed == [] then s.made else s.made + Fresh(again),
         closed := s.closed + closed)
  }

  ghost predicate Distinct(fds: seq<int>) {
    forall i, j | 0 <= i < j < |fds| :: fds[i] != fds[j]
  }

  /** No descriptor is in the pool twice or both in the pool and lent, the sum is constant, and
      every connection in the pool is marked good.  No descriptor is negative. */
  ghost predicate Conserved(s: State) {
    && InBounds(s.h)
    && Distinct(Idle(s.h))
    && (forall fd | fd in s.lent :: fd !in Idle(s.h))
    && s.h.valid + |s.lent| + s.lost == |s.h.fds|
    && (forall i | 0 <= i < s.h.valid :: s.h.statuses[i] == 1 && s.h.fds[i] >= 0)
    && (forall fd | fd in s.lent :: fd >= 0)
  }

  /** No connection leaks: each one ever opened is idle, lent or closed. */
  ghost predicate NoneLeaked(s: State)
    requires InBounds(s.h)
  {
    multiset(s.made) == multiset(Idle(s.h)) + multiset(s.lent) + multiset(s.closed)
  }

  lemma PushKeepsIdle(h: Handle, fd: int)
    requires InBounds(h) && h.valid < |h.fds|
    ensures InBounds(Push(h, fd)) && Idle(Push(h, fd)) == Idle(h) + [fd]
  {
  }

  // ---------------------------------------------------------------- what callers see

  /** A borrow lends the connection that was put back last. */
  lemma BorrowTakesLast(s: State, again: Connect)
    requires Conserved(s) && s.h.valid > 0
    ensures var t, fd := Apply(s, Borrow(again)), s.h.fds[s.h.valid - 1];
            && Idle(s.h) == Idle(t.h) + [fd]
            && t == s.(h := t.h, lent := s.lent + {fd})
            && fd !in s.lent
  {
    var top := s.h.fds[s.h.valid - 1];
    assert Idle(s.h) == s.h.fds[..s.h.valid - 1] + [top];
    assert top in Idle(s.h);
  }

  /** While a caller holds a descriptor the pool has room for it. */
  lemma RoomForLent(s: State, fd: int)
    requires Conserved(s) && fd in s.lent
    ensures s.h.valid < |s.h.fds|
  {
    assert s.lent == {fd} + (s.lent - {fd});
  }

  /** A connection returned as good goes back whatever a connect would give; one returned as
      broken is closed and replaced by what reconnecting yields, or lost. */
  lemma ReturnEffect(s: State, fd: int, flag: int, again: Connect)
    requires Conserved(s) && Enabled(s, Return(fd, flag, again))
    ensures var t := Apply(s, Return(fd, flag, again));
            && InBounds(t.h)
            && t.lent == s.lent - {fd}
            && if flag == 1
               then Idle(t.h) == Idle(s.h) + [fd] && t == s.(h := t.h, lent := t.lent)
               else && Idle(t.h) == Idle(s.h) + Fresh(again)
                    && t.lost == s.lost + 1 - |Fresh(again)|
                    && t.made == s.made + Fresh(again)
                    && t.closed == s.closed + [fd]
  {
    RoomForLent(s, fd);
    PushKeepsIdle(s.h, fd);
    assert s.closed + [] == s.closed;
    match again
    case Connected(newFd) => PushKeepsIdle(s.h, newFd);
    case Refused(_) => assert Idle(s.h) + [] == Idle(s.h);
  }

  /** A good connection that is put back is the next one lent. */
  lemma LastInFirstOut(s: State, fd: int, unused: Connect, again: Connect)
    requires Conserved(s) && Enabled(s, Return(fd, 1, unused))
    ensures var t := Apply(s, Return(fd, 1, unused));
            && Conserved(t)
            && var u := Apply(t, Borrow(again)); Idle(u.h) == Idle(s.h) && u.lent == s.lent
  {
    var t := Apply(s, Return(fd, 1, unused));
    ReturnEffect(s, fd, 1, unused);
    ReturnConserves(s, fd, 1, unused);
    BorrowTakesLast(t, again);
    assert Idle(t.h) == Idle(s.h) + [fd];
    assert t.h.fds[t.h.valid - 1] == Idle(t.h)[|Idle(s.h)|] == fd;
  }

  // ---------------------------------------------------------------- conservation

  lemma BorrowConserves(s: State, again: Connect)
    requires Conserved(s)
    ensures var t := Apply(s, Borrow(again)); Conserved(t) && |t.h.fds| == |s.h.fds|
  {
    if s.h.valid > 0 {
      BorrowTakesLast(s, again);
    }
  }

  lemma ReturnConserves(s: State, fd: int, flag: int, again: Connect)
    requires Conserved(s) && Enabled(s, Return(fd, flag, again))
    ensures var t := Apply(s, Return(fd, flag, again)); Conserved(t) && |t.h.fds| == |s.h.fds|
  {
    RoomForLent(s, fd);
    PushKeepsIdle(s.h, if flag == 1 || again.Refused? then fd else again.fd);
    assert |s.lent - {fd}| == |s.lent| - 1;
  }

  lemma StepConserves(s: State, step: Step)
    requires Conserved(s) && Enabled(s, step)
    ensures Conserved(Apply(s, step)) && |Apply(s, step).h.fds| == |s.h.fds|
  {
    match step {
      case Borrow(again) => BorrowConserves(s, again);
      case Return(fd, flag, again) => ReturnConserves(s, fd, flag, again);
    }
  }

  /** Moving one element between parts of a multiset. */
  lemma MoveOne(idle: seq<int>, top: int, lent: set<int>)
    requires top !in lent
    ensures multiset(idle + [top]) + multiset(lent) == multiset(idle) + multiset(lent + {top})
  {
    assert multiset(lent + {top}) == multiset(lent) + multiset{top};
  }

  lemma BorrowLeaksNone(s: State, again: Connect)
    requires Conserved(s) && NoneLeaked(s)
    ensures NoneLeaked(Apply(s, Borrow(again)))
  {
    if s.h.valid > 0 {
      BorrowTakesLast(s, again);
      MoveOne(Idle(Apply(s, Borrow(again)).h), s.h.fds[s.h.valid - 1], s.lent);
    }
  }

  lemma CloseOne(idle: seq<int>, added: seq<int>, lent: set<int>, fd: int, closed: seq<int>, made: seq<int>)
    requires fd !in lent
    requires multiset(made) == multiset(idle) + multiset(lent + {fd}) + multiset(closed)
    ensures multiset(made + added) == multiset(idle + added) + multiset(lent) + multiset(closed + [fd])
  {
    assert multiset(lent + {fd}) == multiset(lent) + multiset{fd};
  }

  lemma ReturnLeaksNone(s: State, fd: int, flag: int, again: Connect)
    requires Conserved(s) && NoneLeaked(s) && Enabled(s, Return(fd, flag, again))
    ensures InBounds(Apply(s, Return(fd, flag, again)).h)
    ensures NoneLeaked(Apply(s, Return(fd, flag, again)))
  {
    ReturnEffect(s, fd, flag, again);
    assert s.lent == (s.lent - {fd}) + {fd};
    if flag == 1 {
      MoveOne(Idle(s.h), fd, s.lent - {fd});
    } else {
      CloseOne(Idle(s.h), Fresh(again), s.lent - {fd}, fd, s.closed, s.made);
    }
  }

  lemma StepLeaksNone(s: State, step: Step)
    requires Conserved(s) && NoneLeaked(s) && Enabled(s, step)
    ensures InBounds(Apply(s, step).h) && NoneLeaked(Apply(s, step))
  {
    match step {
      case Borrow(again) => BorrowLeaksNone(s, again);
      case Return(fd, flag, again) => ReturnLeaksNone(s, fd, flag, again);
    }
  }

  /** The "already present" and "full" rejections never fire, and the repair inside
      `sckCltPool_getConnet` is never taken: what it would do does not matter. */
  lemma RejectionsNeverFire(s: State, fd: int, flag: int, again: Connect)
    requires Conserved(s) && Enabled(s, Return(fd, flag, again))
    ensures fd >= 0 && Put(s.h, fd, flag, again).code != SCK_ERR_REJECTED
    ensures forall a, b :: Get(s.h, a) == Get(s.h, b)
  {
    RoomForLent(s, fd);
  }

  /** A borrow is refused exactly when every connection is lent or lost. */
  lemma BorrowFailsOnlyWhenEmpty(s: State, again: Connect)
    requires Conserved(s)
    ensures Get(s.h, again).1 != SCK_OK <==> |s.lent| + s.lost == |s.h.fds|
  {
  }

  // ---------------------------------------------------------------- whole runs

  ghost predicate Leads(s: State, steps: seq<Step>, t: State)
    decreases |steps|
  {
    if steps == [] then s == t
    else InBounds(s.h) && Enabled(s, steps[0]) && Leads(Apply(s, steps[0]), steps[1..], t)
  }

  lemma {:induction false} RunConserves(s: State, steps: seq<Step>, t: State)
    requires Conserved(s) && NoneLeaked(s) && Leads(s, steps, t)
    ensures Conserved(t) && NoneLeaked(t) && |t.h.fds| == |s.h.fds|
    decreases |steps|
  {
    if steps != [] {
      StepConserves(s, steps[0]);
      StepLeaksNone(s, steps[0]);
      RunConserves(Apply(s, steps[0]), steps[1..], t);
    }
  }

  function Created(connects: seq<Connect>): State
    requires forall i | 0 <= i < |connects| :: connects[i].Connected?
  {
    State(Full(connects), {}, 0, Opened(connects), [])
  }

  lemma CreatedIsConserved(connects: seq<Connect>)
    requires forall i | 0 <= i < |connects| :: connects[i].Connected?
    requires forall i, j | 0 <= i < j < |connects| :: connects[i].fd != connects[j].fd
    ensures Conserved(Created(connects)) && NoneLeaked(Created(connects))
  {
    assert Idle(Full(connects)) == Opened(connects);
  }

  /** Conservation over every run of a pool that was created: idle, lent and lost descriptors
      always add up to its capacity, and every connection ever opened is idle, lent or closed. */
  lemma EveryRunConserves(connects: seq<Connect>, steps: seq<Step>, t: State)
    requires forall i | 0 <= i < |connects| :: connects[i].Connected?
    requires forall i, j | 0 <= i < j < |connects| :: connects[i].fd != connects[j].fd
    requires Leads(Created(connects), steps, t)
    ensures Conserved(t) && NoneLeaked(t) && |t.h.fds| == |connects|
  {
    CreatedIsConserved(connects);
    RunConserves(Created(connects), steps, t);
  }

  /** Neither the pool nor a caller has this descriptor. */
  ghost predicate IsGone(s: State, fd: int)
    requires InBounds(s.h)
  {
    fd !in Idle(s.h) && fd !in s.lent
  }

  /** A step whose reconnect, if there is one, does not yield `fd`. */
  predicate Avoids(step: Step, fd: nat) {
    step.again != Connected(fd)
  }

  lemma GoneStaysGone(s: State, step: Step, fd: nat)
    requires Conserved(s) && Enabled(s, step) && IsGone(s, fd) && Avoids(step, fd)
    ensures InBounds(Apply(s, step).h) && IsGone(Apply(s, step), fd)
  {
    match step {
      case Borrow(again) =>
        if s.h.valid > 0 {
          BorrowTakesLast(s, again);
        }
      case Return(back, flag, again) => ReturnEffect(s, back, flag, again);
    }
  }

  lemma {:induction false} RunStaysGone(s: State, steps: seq<Step>, t: State, fd: nat)
    requires Conserved(s) && Leads(s, steps, t) && IsGone(s, fd)
    requires forall i | 0 <= i < |steps| :: Avoids(steps[i], fd)
    ensures InBounds(t.h) && IsGone(t, fd)
    decreases |steps|
  {
    if steps != [] {
      StepConserves(s, steps[0]);
      GoneStaysGone(s, steps[0], fd);
      RunStaysGone(Apply(s, steps[0]), steps[1..], t, fd);
    }
  }

  /** Over every run: a descriptor returned as broken is neither idle nor lent again unless a
      later connect yields it. */
  lemma BrokenIsNotLentAgain(s: State, fd: nat, flag: int, again: Connect, steps: seq<Step>, t: State)
    requires Conserved(s) && Enabled(s, Return(fd, flag, again)) && flag != 1
    requires Leads(Apply(s, Return(fd, flag, again)), steps, t)
    requires again != Connected(fd) && forall i | 0 <= i < |steps| :: Avoids(steps[i], fd)
    ensures InBounds(t.h) && fd !in Idle(t.h) && fd !in t.lent
  {
    var next := Apply(s, Return(fd, flag, again));
    StepConserves(s, Return(fd, flag, again));
    ReturnEffect(s, fd, flag, again);
    RunStaysGone(next, steps, t, fd);
  }
}
