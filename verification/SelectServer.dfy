/**
 The select server (select_advance.c): a table of client descriptors beside the set given to
 `select`, bounds on both, and a count of ready descriptors that lets a round stop early.
 */
module SelectServer {

  const FD_SETSIZE := 1024

  datatype Table = Table(client: seq<int>, allset: set<int>, maxi: int, maxfd: int, listenfd: int)

  datatype ReadOutcome = Eof | Data | Error

  /** What one round gets from outside: the descriptors `select` found ready, the one `accept`
      returns if it is called, and what reading each client gives. */
  datatype Input = Input(ready: set<int>, connfd: int, outcomes: map<int, ReadOutcome>)

  function Reading(input: Input, fd: int): ReadOutcome {
    if fd in input.outcomes then input.outcomes[fd] else Error
  }

  // ---------------------------------------------------------------- agreement

  /** A table entry and the descriptor set say the same thing about slot `i`. */
  ghost predicate EntryOk(t: Table, i: nat)
    requires i < |t.client|
  {
    t.client[i] >= 0 ==> t.client[i] in t.allset && t.client[i] != t.listenfd && i <= t.maxi
  }

  ghost predicate HasSlot(t: Table, fd: int) {
    exists i :: 0 <= i < |t.client| && t.client[i] == fd
  }

  /** Occupied slots map one-to-one onto the watched descriptors other than the listening one;
      `maxi` bounds the slots and `maxfd` the descriptors. */
  ghost predicate Agrees(t: Table) {
    && |t.client| == FD_SETSIZE && -1 <= t.maxi < FD_SETSIZE
    && t.listenfd in t.allset
    && (forall i | 0 <= i < |t.client| :: EntryOk(t, i))
    && (forall i, j | 0 <= i < j < |t.client| && t.client[i] >= 0 :: t.client[i] != t.client[j])
    && (forall fd | fd in t.allset :: 0 <= fd <= t.maxfd && (fd != t.listenfd ==> HasSlot(t, fd)))
  }

  function Start(listenfd: int): Table {
    Table(seq(FD_SETSIZE, _ => -1), {listenfd}, -1, listenfd, listenfd)
  }

  lemma StartAgrees(listenfd: int)
    requires listenfd >= 0
    ensures Agrees(Start(listenfd))
  {
  }

  // ---------------------------------------------------------------- one round, without shortcuts

  /** The first free slot at or after `i`, or `FD_SETSIZE`. */
  function FreeIndex(client: seq<int>, i: nat): (free: nat)
    requires i <= |client|
    ensures i <= free <= |client|
    ensures free < |client| ==> client[free] < 0
    ensures forall k | i <= k < free :: client[k] >= 0
    decreases |client| - i
  {
    if i == |client| || client[i] < 0 then i else FreeIndex(client, i + 1)
  }

  function Max(a: int, b: int): int { if a >= b then a else b }

  function Admit(t: Table, connfd: int): Table
    requires FreeIndex(t.client, 0) < |t.client|
  {
    var i := FreeIndex(t.client, 0);
    t.(client := t.client[i := connfd], allset := t.allset + {connfd},
       maxfd := Max(t.maxfd, connfd), maxi := Max(t.maxi, i))
  }

  predicate IsReady(fd: int, input: Input) {
    fd >= 0 && fd in input.ready
  }

  predicate IsClosed(fd: int, input: Input) {
    IsReady(fd, input) && Reading(input, fd) == Eof
  }

  /** The ready clients in slots from `i` on, in slot order. */
  function Ready(client: seq<int>, input: Input, i: nat): seq<int>
    requires i <= |client|
    decreases |client| - i
  {
    if i == |client| then []
    else (if IsReady(client[i], input) then [client[i]] else []) + Ready(client, input, i + 1)
  }

  /** The table after every ready client was served: ended connections are gone. */
  function Served(t: Table, input: Input): Table {
    t.(client := seq(|t.client|, i requires 0 <= i < |t.client| =>
                       if IsClosed(t.client[i], input) then -1 else t.client[i]),
       allset := set fd | fd in t.allset && (fd == t.listenfd || !IsClosed(fd, input)))
  }

  /** `accept` is called when the listening descriptor is ready; with no free slot the program
      exits. */
  predicate Overflows(t: Table, input: Input) {
    t.listenfd in input.ready && FreeIndex(t.client, 0) == |t.client|
  }

  function Admitted(t: Table, input: Input): Table
    requires !Overflows(t, input)
  {
    if t.listenfd in input.ready then Admit(t, input.connfd) else t
  }

  function Round(t: Table, input: Input): Table
    requires !Overflows(t, input)
  {
    Served(Admitted(t, input), input)
  }

  /** `select` reports watched descriptors, and `accept` a descriptor that is not open. */
  predicate InputOk(t: Table, input: Input) {
    input.ready <= t.allset && 0 <= input.connfd && input.connfd !in t.allset
  }

  // ---------------------------------------------------------------- agreement is kept

  lemma AdmitKeepsAgreement(t: Table, connfd: int)
    requires Agrees(t) && connfd >= 0 && connfd !in t.allset && FreeIndex(t.client, 0) < |t.client|
    ensures Agrees(Admit(t, connfd))
  {
    var i, u := FreeIndex(t.client, 0), Admit(t, connfd);
    forall k | 0 <= k < |u.client| ensures EntryOk(u, k) {
      assert EntryOk(t, k);
    }
    forall a, b | 0 <= a < b < |u.client| && u.client[a] >= 0 ensures u.client[a] != u.client[b] {
      assert EntryOk(t, a) && EntryOk(t, b);
    }
    forall fd | fd in u.allset && fd != u.listenfd ensures HasSlot(u, fd) {
      if fd == connfd {
        assert u.client[i] == fd;
      } else {
        assert HasSlot(t, fd);
        var k :| 0 <= k < |t.client| && t.client[k] == fd;
        assert u.client[k] == fd;
      }
    }
  }

  lemma ServedKeepsAgreement(t: Table, input: Input)
    requires Agrees(t)
    ensures Agrees(Served(t, input))
  {
    var u := Served(t, input);
    forall k | 0 <= k < |u.client| ensures EntryOk(u, k) {
      assert EntryOk(t, k);
    }
    forall fd | fd in u.allset && fd != u.listenfd ensures HasSlot(u, fd) {
      assert HasSlot(t, fd);
      var k :| 0 <= k < |t.client| && t.client[k] == fd;
      assert u.client[k] == fd;
    }
  }

  lemma RoundKeepsAgreement(t: Table, input: Input)
    requires Agrees(t) && InputOk(t, input) && !Overflows(t, input)
    ensures Agrees(Round(t, input))
  {
    if t.listenfd in input.ready {
      AdmitKeepsAgreement(t, input.connfd);
    }
    ServedKeepsAgreement(Admitted(t, input), input);
  }

  function Run(t: Table, inputs: seq<Input>): Table
    requires RunOk(t, inputs)
    decreases |inputs|
  {
    if inputs == [] then t else Run(Round(t, inputs[0]), inputs[1..])
  }

  /** Rounds that `select` and `accept` allow and in which the program does not exit. */
  predicate RunOk(t: Table, inputs: seq<Input>)
    decreases |inputs|
  {
    inputs == [] ||
    (InputOk(t, inputs[0]) && !Overflows(t, inputs[0]) && RunOk(Round(t, inputs[0]), inputs[1..]))
  }

  /** The table agrees with the descriptor set after every run of the server. */
  lemma {:induction false} EveryRunAgrees(t: Table, inputs: seq<Input>)
    requires Agrees(t) && RunOk(t, inputs)
    ensures Agrees(Run(t, inputs))
    decreases |inputs|
  {
    if inputs != [] {
      RoundKeepsAgreement(t, inputs[0]);
      EveryRunAgrees(Round(t, inputs[0]), inputs[1..]);
    }
  }

  // ---------------------------------------------------------------- what a round does

  /** The clients that go in a round: those that were ready and whose read met the end. */
  predicate AtEnd(input: Input, fd: int) {
    fd in input.ready && fd in input.outcomes && input.outcomes[fd] == Eof
  }

  predicate IsLowestFree(client: seq<int>, i: nat) {
    i < |client| && client[i] < 0 && forall k | 0 <= k < i :: client[k] >= 0
  }

  /** What a round makes of slot `i`: a new client goes to the lowest free slot, a client at its
      end leaves, everything else stays. */
  predicate SlotFollows(t: Table, input: Input, u: Table, i: nat)
    requires i < |t.client| == |u.client|
  {
    if t.listenfd in input.ready && IsLowestFree(t.client, i)
    then u.client[i] == input.connfd && u.maxi == Max(t.maxi, i) && u.maxfd == Max(t.maxfd, input.connfd)
    else u.client[i] == if AtEnd(input, t.client[i]) && t.client[i] >= 0 then -1 else t.client[i]
  }

  /** A whole round in terms of what came from outside. */
  ghost predicate RoundFollows(t: Table, input: Input, u: Table) {
    && |t.client| == |u.client| && u.listenfd == t.listenfd
    && (forall i | 0 <= i < |t.client| :: SlotFollows(t, input, u, i))
    && (forall fd :: fd in u.allset <==>
          || fd == t.listenfd
          || (t.listenfd in input.ready && fd == input.connfd)
          || (fd in t.allset && !AtEnd(input, fd)))
    && (t.listenfd !in input.ready ==> u.maxi == t.maxi && u.maxfd == t.maxfd)
  }

  /** The server gives up exactly when somebody connects while every slot is taken. */
  lemma OverflowsExactly(t: Table, input: Input)
    ensures Overflows(t, input) <==>
              t.listenfd in input.ready && forall k | 0 <= k < |t.client| :: t.client[k] >= 0
  {
  }

  lemma RoundFollowsInput(t: Table, input: Input)
    requires Agrees(t) && InputOk(t, input) && !Overflows(t, input)
    ensures RoundFollows(t, input, Round(t, input))
  {
    var u := Round(t, input);
    forall i | 0 <= i < |t.client| ensures SlotFollows(t, input, u, i) {
      assert EntryOk(t, i);
    }
  }

  /** Over every run: a client keeps its slot and stays watched until a round in which it is
      ready and its read meets the end of the stream. */
  lemma {:induction false} EveryRunKeepsClient(t: Table, inputs: seq<Input>, i: nat)
    requires Agrees(t) && RunOk(t, inputs) && i < |t.client| && t.client[i] >= 0
    requires forall r | 0 <= r < |inputs| :: !AtEnd(inputs[r], t.client[i])
    ensures var u := Run(t, inputs);
            |u.client| == |t.client| && u.client[i] == t.client[i] && t.client[i] in u.allset
    decreases |inputs|
  {
    assert EntryOk(t, i);
    if inputs != [] {
      var u := Round(t, inputs[0]);
      RoundFollowsInput(t, inputs[0]);
      assert SlotFollows(t, inputs[0], u, i);
      RoundKeepsAgreement(t, inputs[0]);
      EveryRunKeepsClient(u, inputs[1..], i);
    }
  }

  // ---------------------------------------------------------------- counting the ready ones

  lemma {:induction false} ReadyMembers(client: seq<int>, input: Input, i: nat, fd: int)
    requires i <= |client|
    ensures fd in Ready(client, input, i) <==>
              IsReady(fd, input) && exists k :: i <= k < |client| && client[k] == fd
    decreases |client| - i
  {
    if i < |client| {
      ReadyMembers(client, input, i + 1, fd);
    }
  }

  /** No descriptor is served twice. */
  lemma {:induction false} ReadyOnce(t: Table, input: Input, i: nat)
    requires Agrees(t) && i <= |t.client|
    ensures forall fd :: multiset(Ready(t.client, input, i))[fd] <= 1
    decreases |t.client| - i
  {
    if i < |t.client| {
      ReadyOnce(t, input, i + 1);
      ReadyMembers(t.client, input, i + 1, t.client[i]);
      var later := Ready(t.client, input, i + 1);
      assert multiset([t.client[i]] + later) == multiset{t.client[i]} + multiset(later);
    }
  }

  lemma ReadyMembersExact(t: Table, input: Input, fd: int)
    requires Agrees(t) && input.ready <= t.allset
    ensures fd in Ready(t.client, input, 0) <==> fd in input.ready && fd != t.listenfd
  {
    ReadyMembers(t.client, input, 0, fd);
    if fd in input.ready && fd != t.listenfd {
      assert HasSlot(t, fd);
    }
    assert forall k | 0 <= k < |t.client| && t.client[k] == t.listenfd :: EntryOk(t, k);
  }

  lemma CountsAgree(served: seq<int>, ready: set<int>)
    requires forall fd :: fd in served <==> fd in ready
    requires forall fd :: multiset(served)[fd] <= 1
    ensures multiset(served) == multiset(ready) && |served| == |ready|
  {
    forall fd ensures multiset(served)[fd] == multiset(ready)[fd] {
      assert fd in served <==> fd in multiset(served);
    }
    assert |multiset(served)| == |served|;
  }

  /** The ready clients in the table are exactly the ready descriptors other than the listening
      one, each once. */
  lemma ReadyIsExact(t: Table, input: Input)
    requires Agrees(t) && input.ready <= t.allset
    ensures multiset(Ready(t.client, input, 0)) == multiset(input.ready - {t.listenfd})
    ensures |Ready(t.client, input, 0)| == |input.ready - {t.listenfd}|
  {
    ReadyOnce(t, input, 0);
    forall fd ensures fd in Ready(t.client, input, 0) <==> fd in input.ready - {t.listenfd} {
      ReadyMembersExact(t, input, fd);
    }
    CountsAgree(Ready(t.client, input, 0), input.ready - {t.listenfd});
  }

  /** A new client is not among the ready ones. */
  lemma {:induction false} AdmitAddsNoneReady(t: Table, input: Input, free: nat, i: nat)
    requires InputOk(t, input) && free < |t.client| && t.client[free] < 0 && i <= |t.client|
    ensures Ready(t.client[free := input.connfd], input, i) == Ready(t.client, input, i)
    decreases |t.client| - i
  {
    if i < |t.client| {
      AdmitAddsNoneReady(t, input, free, i + 1);
    }
  }

  lemma {:induction false} NoneBeyond(t: Table, input: Input, i: nat)
    requires Agrees(t) && t.maxi < i <= |t.client|
    ensures Ready(t.client, input, i) == []
    decreases |t.client| - i
  {
    if i < |t.client| {
      assert EntryOk(t, i);
      NoneBeyond(t, input, i + 1);
    }
  }

  // ---------------------------------------------------------------- the program

  /** The variables of `main`; `served` lists the clients read in this round, in order. */
  class Server {
    const client: array<int>
    const listenfd: int
    var allset: set<int>
    var maxi: int
    var maxfd: int
    var served: seq<int>

    ghost predicate Valid()
      reads this, client
    {
      Agrees(View())
    }

    ghost function View(): Table
      reads this, client
    {
      Table(client[..], allset, maxi, maxfd, listenfd)
    }

    constructor (lfd: int)
      requires lfd >= 0
      ensures Valid() && fresh(client) && View() == Start(lfd)
      ensures listenfd == lfd && allset == {lfd} && maxi == -1 && maxfd == lfd
      ensures client.Length == 1024 && forall k | 0 <= k < client.Length :: client[k] == -1
    {
      client := new int[FD_SETSIZE](_ => -1);
      listenfd, maxfd, maxi := lfd, lfd, -1;
      allset, served := {lfd}, [];
      new;
      assert client[..] == seq(FD_SETSIZE, _ => -1);
      StartAgrees(lfd);
    }

    /** The search loop and the bookkeeping after `accept`; false when the table is full. */
    method AcceptClient(connfd: int) returns (ok: bool)
      requires client.Length == FD_SETSIZE
      modifies client, this`allset, this`maxi, this`maxfd
      ensures ok == (FreeIndex(old(client[..]), 0) < FD_SETSIZE)
      ensures ok <==> exists k :: 0 <= k < FD_SETSIZE && old(client[k]) < 0
      ensures ok ==> exists k: nat :: IsLowestFree(old(client[..]), k) && client[k] == connfd
      ensures View() == if ok then Admit(old(View()), connfd) else old(View())
    {
      var i := 0;
      while i < FD_SETSIZE && client[i] >= 0
        invariant 0 <= i <= FD_SETSIZE
        invariant FreeIndex(client[..], i) == FreeIndex(client[..], 0)
      {
        i := i + 1;
      }
      if i == FD_SETSIZE {
        return false;
      }
      assert IsLowestFree(client[..], i);
      client[i] := connfd;
      allset := allset + {connfd};
      if connfd > maxfd {
        maxfd := connfd;
      }
      if i > maxi {
        maxi := i;
      }
      ok := true;
    }

    /** Reading the ready client in slot `i`; at end of stream it is closed and forgotten. */
    method ServeSlot(i: nat, input: Input)
      requires i < client.Length && client[i] >= 0 && client[i] in input.ready
      modifies client, this`allset, this`served
      ensures served == old(served) + [old(client[i])]
      ensures View() == if IsClosed(old(client[i]), input)
                        then old(View()).(client := old(client[..])[i := -1], allset := old(allset) - {old(client[i])})
                        else old(View())
    {
      var sockfd := client[i];
      if Reading(input, sockfd) == Eof {
        allset := allset - {sockfd};
        client[i] := -1;
      }
      served := served + [sockfd];
    }

    /** The service loop with its `maxi` bound and its early exit.  As long as `count` is the
        number of ready clients it serves all of them, each once and in slot order. */
    method ServeClients(input: Input, count: nat)
      requires Valid() && count == |Ready(client[..], input, 0)|
      modifies client, this`allset, this`served
      ensures View() == Served(old(View()), input)
      ensures served == Ready(old(client[..]), input, 0)
    {
      ghost var before := View();
      served := [];
      var nready, i := count, 0;
      while i <= maxi
        invariant 0 <= i <= maxi + 1
        invariant StillReady(before.client, input, i, served, nready)
        invariant HalfServed(before, View(), input, i)
      {
        var sockfd := client[i];
        ghost var now := View();
        ReadyOneLess(before.client, input, i, served, nready);
        if sockfd >= 0 && sockfd in input.ready {
          ServeSlot(i, input);
          ServedOneMore(before, now, View(), input, i);
          nready := nready - 1;
          if nready == 0 {
            i := i + 1;
            break;
          }
        } else {
          ServedOneMore(before, now, now, input, i);
        }
        i := i + 1;
      }
      if nready > 0 {
        NoneBeyond(before, input, i);
      }
      RestUntouched(before, View(), input, i);
    }

    /** One round of the server: the listening descriptor first, then the clients, with the
        count of ready descriptors that `select` returned.  `ok` is false when it exits. */
    method RunRound(input: Input) returns (ok: bool)
      requires Valid() && InputOk(View(), input)
      modifies client, this
      ensures !ok <==> listenfd in input.ready && forall k | 0 <= k < 1024 :: old(client[k]) >= 0
      ensures ok ==> RoundFollows(old(View()), input, View())
      ensures ok ==> Valid() && !Overflows(old(View()), input) && View() == Round(old(View()), input)
      ensures ok ==> multiset(served) == multiset(input.ready - {listenfd})
    {
      ghost var before := View();
      served := [];
      var nready := |input.ready|;
      if listenfd in input.ready {
        ok := AcceptClient(input.connfd);
        if !ok {
          return;
        }
        AdmitKeepsAgreement(before, input.connfd);
        AdmitAddsNoneReady(before, input, FreeIndex(before.client, 0), 0);
        nready := nready - 1;
      }
      ReadyIsExact(before, input);
      RoundKeepsAgreement(before, input);
      RoundFollowsInput(before, input);
      assert nready == |input.ready - {listenfd}|;
      ok := true;
      if listenfd in input.ready && nready == 0 {
        ServedNothing(View(), input);
        return;
      }
      ServeClients(input, nready);
    }
  }

  /** The state inside the service loop: slots before `i` are done, the others untouched. */
  ghost predicate HalfServed(before: Table, now: Table, input: Input, i: nat) {
    && |now.client| == |before.client|
    && now.maxi == before.maxi && now.maxfd == before.maxfd && now.listenfd == before.listenfd
    && (forall k | 0 <= k < |now.client| ::
          now.client[k] == if k < i && IsClosed(before.client[k], input) then -1 else before.client[k])
    && (forall fd :: fd in now.allset <==>
          && fd in before.allset
          && !(IsClosed(fd, input) && exists k :: 0 <= k < i && k < |before.client| && before.client[k] == fd))
  }

  /** The clients served so far and the ready ones from slot `i` on make up the ready clients,
      and `nready` counts the latter. */
  ghost predicate StillReady(client: seq<int>, input: Input, i: nat, served: seq<int>, nready: int) {
    && i <= |client|
    && nready == |Ready(client, input, i)|
    && served + Ready(client, input, i) == Ready(client, input, 0)
  }

  lemma ReadyOneLess(client: seq<int>, input: Input, i: nat, served: seq<int>, nready: int)
    requires StillReady(client, input, i, served, nready) && i < |client|
    ensures if IsReady(client[i], input) then StillReady(client, input, i + 1, served + [client[i]], nready - 1)
            else StillReady(client, input, i + 1, served, nready)
  {
    if IsReady(client[i], input) {
      assert served + [client[i]] + Ready(client, input, i + 1) == served + Ready(client, input, i);
    }
  }

  lemma ServedOneMore(before: Table, now: Table, after: Table, input: Input, i: nat)
    requires Agrees(before) && HalfServed(before, now, input, i) && i < |before.client|
    requires after == if IsClosed(before.client[i], input)
                      then now.(client := now.client[i := -1], allset := now.allset - {before.client[i]})
                      else now
    ensures HalfServed(before, after, input, i + 1)
  {
  }

  /** When no ready client is left, half served is served. */
  lemma RestUntouched(before: Table, now: Table, input: Input, i: nat)
    requires Agrees(before) && HalfServed(before, now, input, i) && i <= |before.client|
    requires Ready(before.client, input, i) == []
    ensures now == Served(before, input)
  {
    forall k | i <= k < |before.client| ensures !IsReady(before.client[k], input) {
      ReadyMembers(before.client, input, i, before.client[k]);
    }
    assert now.client == Served(before, input).client;
    forall fd ensures fd in now.allset <==> fd in Served(before, input).allset {
      if fd in before.allset && fd != before.listenfd && IsClosed(fd, input) {
        assert HasSlot(before, fd);
      } else if fd == before.listenfd {
        assert forall k | 0 <= k < |before.client| && before.client[k] >= 0 :: EntryOk(before, k);
      }
    }
  }

  lemma ServedNothing(t: Table, input: Input)
    requires Agrees(t) && Ready(t.client, input, 0) == []
    ensures Served(t, input) == t
  {
    RestUntouched(t, t, input, 0);
  }
}
