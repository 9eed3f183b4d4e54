/**
 The adaptive pool does lose wakeups.  A worker that returns from its wait consumes a
 pending exit request before it looks at the queue, so the signal sent for a new task can be
 spent on a retirement while other workers stay asleep.

 This module settles exactly which pools can abandon a queued task, so that none of their own
 steps ever starts it: those created without a minimum thread, and those that can both grow
 and hold the ten tasks that make the manager grow them.  No spurious wakeup is needed.
 */
module AdaptivePoolStranding {
  import opened RingIndex
  import opened Totals
  import opened AdaptivePool

  // ---------------------------------------------------------------- abandoned tasks

  /** Steps that something outside the pool makes happen. */
  predicate IsExternal(step: Step) {
    step.Call? || step.SpuriousWorker? || step.SpuriousProducer? || step.Shutdown?
  }

  ghost predicate OwnSteps(steps: seq<Step>) {
    forall i | 0 <= i < |steps| :: !IsExternal(steps[i])
  }

  /** Tasks are queued, and whatever the pool's threads do by themselves, for however long and
      in whatever order, they never start one. */
  ghost predicate Abandoned(s: State) {
    && RingOk(s.mem)
    && s.mem.size > 0
    && !s.mem.shutdown
    && forall steps, t :: Leads(s, steps, t) && OwnSteps(steps) ==> t.started == s.started
  }

  // ---------------------------------------------------------------- a sufficient shape

  predicate IsIdle(w: Worker) { w == Free || w == Asleep || w.Leaving? }

  /** The manager has no pending wakeups, and its snapshots call for no change. */
  predicate IsQuiet(manager: Manager, minThr: int) {
    match manager
    case Counted(queue, live) => queue < MIN_WAIT_TASK_NUM && live <= minThr
    case Sampled(queue, live, _) => queue < MIN_WAIT_TASK_NUM && live <= minThr
    case Grown(live, _) => live <= minThr
    case Waking(_) => false
    case _ => true
  }

  /** Tasks are queued, no worker is awake, and no wakeup is on its way. */
  ghost predicate Stranded(s: State) {
    && RingOk(s.mem)
    && 0 < s.mem.size < MIN_WAIT_TASK_NUM
    && s.mem.live == s.mem.minThr
    && !s.mem.shutdown
    && (forall i | 0 <= i < |s.threads| :: IsIdle(s.threads[i]))
    && (forall i | 0 <= i < |s.producers| :: s.producers[i] == Outside)
    && IsQuiet(s.manager, s.mem.minThr)
  }

  lemma StrandedStays(s: State, step: Step)
    requires Stranded(s) && Enabled(s, step) && !IsExternal(step)
    ensures Stranded(Apply(s, step)) && Apply(s, step).started == s.started
  {
    assert step.WorkerLock? || step.StartTask? || step.EndTask? ==> IsIdle(s.threads[step.w]);
  }

  /** Without a new call or a wakeup nobody sent, no queued task is ever started again. */
  lemma {:induction false} StrandedForever(s: State, steps: seq<Step>, t: State)
    requires Stranded(s) && Leads(s, steps, t) && OwnSteps(steps)
    ensures Stranded(t) && t.started == s.started
    decreases |steps|
  {
    if steps != [] {
      StrandedStays(s, steps[0]);
      StrandedForever(Apply(s, steps[0]), steps[1..], t);
    }
  }

  lemma StrandedIsAbandoned(s: State)
    requires Stranded(s)
    ensures Abandoned(s)
  {
    forall steps, t | Leads(s, steps, t) && OwnSteps(steps)
      ensures t.started == s.started
    {
      StrandedForever(s, steps, t);
    }
  }

  // ---------------------------------------------------------------- pools that are safe

  /** A pool that can never grow: it starts at its maximum, or its ring is too short for the
      manager's threshold. */
  predicate CannotGrow(m: Shared) {
    m.minThr == m.maxThr || |m.cells| < MIN_WAIT_TASK_NUM
  }

  ghost predicate NeverGrew(s: State) {
    && s.mem.live == s.mem.minThr
    && s.retired == 0
    && s.spent == 0
    && (s.manager.Counted? || s.manager.Sampled? ==>
          s.manager.queue <= |s.mem.cells| && s.manager.live == s.mem.minThr)
  }

  lemma StepKeepsSize(s: State, step: Step)
    requires RingOk(s.mem) && CannotGrow(s.mem) && NeverGrew(s) && Enabled(s, step)
    ensures var t := Apply(s, step); CannotGrow(t.mem) && NeverGrew(t) && t.mem.minThr == s.mem.minThr
  {
  }

  lemma {:induction false} RunKeepsSize(s: State, steps: seq<Step>, t: State)
    requires Inv(s) && CannotGrow(s.mem) && NeverGrew(s) && Leads(s, steps, t)
    ensures NeverGrew(t) && Inv(t) && t.mem.minThr == s.mem.minThr
    decreases |steps|
  {
    if steps != [] {
      StepKeepsSize(s, steps[0]);
      StepKeepsInv(s, steps[0]);
      RunKeepsSize(Apply(s, steps[0]), steps[1..], t);
    }
  }

  /** A pool that cannot grow loses no wakeup, with any number of tasks queued, producers
      inside the pool and pending decisions of the manager. */
  lemma CannotGrowKeepsWakeups(s: State, steps: seq<Step>, t: State)
    requires Initial(s) && Leads(s, steps, t) && CannotGrow(s.mem)
    ensures !t.mem.shutdown && AnyAsleep(t.threads) ==> t.mem.size <= Sum(t.threads, OneIfWoken)
  {
    InitialInv(s);
    RunKeepsSize(s, steps, t);
  }

  /** Before shutdown, queued tasks leave some thread of a pool that never grew awake. */
  lemma SomebodyIsUp(s: State) returns (w: nat)
    requires Inv(s) && NeverGrew(s) && s.mem.minThr > 0 && s.mem.size > 0 && !s.mem.shutdown
    ensures w < |s.threads| && !IsIdle(s.threads[w])
  {
    if forall i | 0 <= i < |s.threads| :: IsIdle(s.threads[i]) {
      SumZero(s.threads, OneIfWoken);
      assert !AnyAsleep(s.threads);
      SumZero(s.threads, OneIfCounted);
      assert false;
    }
    w :| 0 <= w < |s.threads| && !IsIdle(s.threads[w]);
  }

  lemma OneStep(s: State, step: Step)
    requires RingOk(s.mem) && Enabled(s, step)
    ensures Leads(s, [step], Apply(s, step))
  {
    assert [step][1..] == [];
    assert Leads(Apply(s, step), [], Apply(s, step));
  }

  lemma OneStepFirst(s: State, step: Step, steps: seq<Step>, t: State)
    requires RingOk(s.mem) && Enabled(s, step) && Leads(Apply(s, step), steps, t)
    ensures Leads(s, [step] + steps, t)
  {
    assert ([step] + steps)[1..] == steps;
  }

  /** A thread at its lock takes a task: no exit request can retire it. */
  lemma LockingStarts(s: State, w: nat)
    requires RingOk(s.mem) && NeverGrew(s) && s.mem.size > 0 && !s.mem.shutdown
    requires Enabled(s, WorkerLock(w))
    ensures |Apply(s, WorkerLock(w)).started| == |s.started| + 1
  {
  }

  /** How many of its own steps a thread that is up needs to take the next task. */
  function StepsToTask(w: Worker): nat {
    match w
    case Holding(_) => 3
    case Busy(_) => 2
    case _ => 1
  }

  lemma UpThreadStarts(s: State, w: nat) returns (steps: seq<Step>, t: State)
    requires RingOk(s.mem) && NeverGrew(s) && s.mem.size > 0 && !s.mem.shutdown
    requires w < |s.threads| && !IsIdle(s.threads[w])
    ensures Leads(s, steps, t) && OwnSteps(steps) && |steps| == StepsToTask(s.threads[w])
    ensures |t.started| == |s.started| + 1
    decreases StepsToTask(s.threads[w])
  {
    if s.threads[w] == Starting || s.threads[w] == Woken {
      LockingStarts(s, w);
      OneStep(s, WorkerLock(w));
      return [WorkerLock(w)], Apply(s, WorkerLock(w));
    }
    var step := if s.threads[w].Holding? then StartTask(w) else EndTask(w);
    var later;
    later, t := UpThreadStarts(Apply(s, step), w);
    OneStepFirst(s, step, later, t);
    steps := [step] + later;
  }

  lemma CannotGrowNeverAbandons(s: State, steps: seq<Step>, t: State)
    requires Initial(s) && Leads(s, steps, t)
    requires s.mem.minThr > 0 && CannotGrow(s.mem)
    ensures !Abandoned(t)
  {
    InitialInv(s);
    RunKeepsSize(s, steps, t);
    if t.mem.size > 0 && !t.mem.shutdown {
      var w := SomebodyIsUp(t);
      var own, later := UpThreadStarts(t, w);
    }
  }

  lemma NoCellsNeverAbandons(s: State, steps: seq<Step>, t: State)
    requires Leads(s, steps, t) && |s.mem.cells| == 0
    ensures !Abandoned(t)
  {
    RunKeepsRing(s, steps, t);
  }

  lemma {:induction false} RunKeepsRing(s: State, steps: seq<Step>, t: State)
    requires Leads(s, steps, t)
    ensures |t.mem.cells| == |s.mem.cells|
    decreases |steps|
  {
    if steps != [] {
      StepKeepsRing(s, steps[0]);
      RunKeepsRing(Apply(s, steps[0]), steps[1..], t);
    }
  }

  lemma StepKeepsRing(s: State, step: Step)
    requires RingOk(s.mem) && Enabled(s, step)
    ensures |Apply(s, step).mem.cells| == |s.mem.cells|
  {
  }

  // ---------------------------------------------------------------- reaching

  ghost predicate Reaches(s: State, t: State) {
    exists steps :: Leads(s, steps, t)
  }

  predicate IsSpurious(step: Step) {
    step.SpuriousWorker? || step.SpuriousProducer?
  }

  ghost predicate LeadsQuietly(s: State, steps: seq<Step>, t: State) {
    Leads(s, steps, t) && forall i | 0 <= i < |steps| :: !IsSpurious(steps[i])
  }

  /** Reachable without a single spurious wakeup. */
  ghost predicate ReachesQuietly(s: State, t: State) {
    exists steps :: LeadsQuietly(s, steps, t)
  }

  lemma {:induction false} LeadsOn(a: State, p: seq<Step>, b: State, q: seq<Step>, c: State)
    requires Leads(a, p, b) && Leads(b, q, c)
    ensures Leads(a, p + q, c)
    decreases |p|
  {
    if p == [] {
      assert p + q == q;
    } else {
      LeadsOn(Apply(a, p[0]), p[1..], b, q, c);
      OneStepFirst(a, p[0], p[1..] + q, c);
      assert [p[0]] + (p[1..] + q) == p + q;
    }
  }

  lemma ReachesSelf(a: State)
    ensures ReachesQuietly(a, a)
  {
    assert LeadsQuietly(a, [], a);
  }

  lemma Then(a: State, b: State, step: Step)
    requires ReachesQuietly(a, b) && RingOk(b.mem) && Enabled(b, step) && !IsSpurious(step)
    ensures ReachesQuietly(a, Apply(b, step))
  {
    var p :| LeadsQuietly(a, p, b);
    OneStep(b, step);
    LeadsOn(a, p, b, [step], Apply(b, step));
    assert LeadsQuietly(a, p + [step], Apply(b, step));
  }

  // ---------------------------------------------------------------- a run that strands tasks

  const JOB := Task(1, 1)

  /** The only producer adds a task, and its signal wakes a sleeper if there is one. */
  lemma ThenAdd(a: State, s: State, wakes: nat, t: State)
    requires ReachesQuietly(a, s) && s.producers == [Outside]
    requires RingOk(s.mem) && !IsFull(s.mem) && !s.mem.shutdown && CanWake(s.threads, wakes)
    requires t == s.(mem := PutTask(s.mem, JOB), threads := WakeOne(s.threads, wakes),
                     accepted := s.accepted + [JOB])
    ensures ReachesQuietly(a, t)
  {
    Then(a, s, Call(0, JOB));
    assert [Outside][0 := Entering(JOB)] == [Entering(JOB)];
    var called := s.(producers := [Entering(JOB)]);
    Then(a, called, ProducerLock(0, wakes));
    assert [Entering(JOB)][0 := Outside] == [Outside];
  }

  /** The manager wakes up and takes its two snapshots, one right after the other. */
  lemma ThenSample(a: State, s: State, t: State)
    requires ReachesQuietly(a, s) && s.manager == Testing
    requires RingOk(s.mem) && !s.mem.shutdown && !AnyAsleep(s.threads)
    requires t == s.(manager := Sampled(s.mem.size, s.mem.live, s.mem.busy))
    ensures ReachesQuietly(a, t)
  {
    Then(a, s, Manage(0));
    Then(a, s.(manager := Napping), Manage(0));
    Then(a, s.(manager := Counted(s.mem.size, s.mem.live)), Manage(0));
  }

  /** A woken thread finds an exit request and retires, whatever is queued. */
  lemma ThenRetire(a: State, s: State, w: nat, t: State)
    requires ReachesQuietly(a, s) && w < |s.threads| && s.threads[w] == Woken
    requires RingOk(s.mem) && s.mem.waitExit > 0 && s.mem.live > s.mem.minThr
    requires t == s.(mem := s.mem.(waitExit := s.mem.waitExit - 1, live := s.mem.live - 1),
                     threads := s.threads[w := Leaving(true)], retired := s.retired + 1,
                     spent := s.spent + if s.mem.size > 0 then 1 else 0)
    ensures ReachesQuietly(a, t)
  {
    assert s.started + [] == s.started;
    Then(a, s, WorkerLock(w));
  }

  function Jobs(n: nat): seq<Task> { seq(n, _ => JOB) }

  function Done(n: nat): multiset<Task> { multiset{}[JOB := n] }

  /** The three arguments of `threadpool_create`. */
  datatype Setup = Setup(minThr: nat, maxThr: nat, cells: nat) {
    /** Live threads after one growth decision of a pool whose table is otherwise free. */
    function Peak(): nat {
      if minThr + DEFAULT_THREAD_VARY <= maxThr then minThr + DEFAULT_THREAD_VARY else maxThr
    }

    /** How many threads retire before a task is queued again: a pool that grew by ten must
        lose one early, since a tenth queued task would make it grow once more. */
    function Early(): nat {
      if minThr + DEFAULT_THREAD_VARY <= maxThr then 1 else 0
    }

    predicate CanGrow() {
      minThr < maxThr && cells >= MIN_WAIT_TASK_NUM
    }
  }

  /** A ring whose cells all hold the same task. */
  function Mem(p: Setup, front: nat, size: nat, live: int, waitExit: int, busy: int): Shared
    requires p.cells > 0
  {
    Shared(Jobs(p.cells), front, (front + size) % p.cells, size, p.minThr, p.maxThr, live, waitExit, busy, false)
  }

  /** `a` threads in one position, then up to entry `b` in another, the rest free. */
  function Table(p: Setup, a: nat, first: Worker, b: nat, second: Worker): seq<Worker> {
    seq(p.maxThr, i => if i < a then first else if i < b then second else Free)
  }

  lemma OneMoreJob(k: nat)
    ensures Jobs(k) + [JOB] == Jobs(k + 1)
  {
  }

  lemma OneMoreDone(k: nat)
    ensures Done(k) + multiset{JOB} == Done(k + 1)
  {
  }

  lemma MemPut(p: Setup, front: nat, size: nat, live: int, waitExit: int)
    requires front < p.cells && size < p.cells
    ensures var m := Mem(p, front, size, live, waitExit, 0);
            RingOk(m) && PutTask(m, JOB) == Mem(p, front, size + 1, live, waitExit, 0)
  {
    var m := Mem(p, front, size, live, waitExit, 0);
    WrapOnce(front + size, p.cells);
    WrapOnce(m.rear + 1, p.cells);
    WrapOnce(front + size + 1, p.cells);
    assert Jobs(p.cells)[m.rear := JOB] == Jobs(p.cells);
  }

  lemma MemTake(p: Setup, front: nat, size: nat, live: int)
    requires front < p.cells && 0 < size <= p.cells
    ensures var m := Mem(p, front, size, live, 0, 0);
            && RingOk(m)
            && LoopSection(m) ==
               Section(Mem(p, (front + 1) % p.cells, size - 1, live, 0, 0), [JOB], Holding(JOB))
  {
    WrapOnce(front + size, p.cells);
    WrapOnce(front + 1, p.cells);
    WrapOnce((front + 1) % p.cells + (size - 1), p.cells);
  }

  /** `n` tasks added, no worker has run yet. */
  function Filling(p: Setup, n: nat): State
    requires p.cells > 0
  {
    State(Mem(p, 0, n, p.minThr, 0, 0), Table(p, 0, Free, p.minThr, Starting), [Outside], Testing,
          Jobs(n), [], multiset{}, 0, 0, 0)
  }

  lemma FillingStarts(p: Setup)
    requires p.cells > 0 && p.minThr <= p.maxThr
    ensures Initial(Filling(p, 0))
  {
    assert Filling(p, 0).threads == StartedThreads(p.minThr, p.maxThr);
    assert Jobs(0) == [];
  }

  lemma AddOne(p: Setup, a: State, n: nat)
    requires n < p.cells && ReachesQuietly(a, Filling(p, n))
    ensures ReachesQuietly(a, Filling(p, n + 1))
  {
    var s := Filling(p, n);
    MemPut(p, 0, n, p.minThr, 0);
    assert !AnyAsleep(s.threads);
    OneMoreJob(n);
    ThenAdd(a, s, 0, Filling(p, n + 1));
  }

  lemma {:induction false} FillUp(p: Setup, n: nat)
    requires 0 < p.cells && n <= p.cells
    ensures ReachesQuietly(Filling(p, 0), Filling(p, n))
  {
    if n == 0 {
      ReachesSelf(Filling(p, 0));
    } else {
      FillUp(p, n - 1);
      AddOne(p, Filling(p, 0), n - 1);
    }
  }

  lemma {:induction false} ScanPastStarted(p: Setup, i: nat)
    requires p.minThr < p.maxThr && i <= p.minThr
    ensures var t := Table(p, 0, Free, p.minThr, Starting);
            Grow(t, p.minThr, p.maxThr, i, 0) == Grow(t, p.minThr, p.maxThr, p.minThr, 0)
    decreases p.minThr - i
  {
    if i < p.minThr {
      ScanPastStarted(p, i + 1);
    }
  }

  lemma {:induction false} ScanStarts(p: Setup, j: nat)
    requires p.minThr < p.maxThr && p.minThr <= j <= p.Peak()
    ensures Grow(Table(p, 0, Free, j, Starting), j, p.maxThr, j, j - p.minThr) ==
            (Table(p, 0, Free, p.Peak(), Starting), p.Peak())
    decreases p.Peak() - j
  {
    if j < p.Peak() {
      assert Table(p, 0, Free, j, Starting)[j := Starting] == Table(p, 0, Free, j + 1, Starting);
      ScanStarts(p, j + 1);
    }
  }

  /** `k` of the ten tasks run, by the first thread; the others have not run yet. */
  function Draining(p: Setup, k: nat, manager: Manager, waitExit: int, shrinks: nat): State
    requires p.CanGrow() && k <= 10
  {
    State(Mem(p, k % p.cells, 10 - k, p.Peak(), waitExit, 0), Table(p, 0, Free, p.Peak(), Starting), [Outside],
          manager, Jobs(10), Jobs(k), Done(k), 0, shrinks, 0)
  }

  lemma GrowToPeak(p: Setup, a: State)
    requires p.CanGrow() && ReachesQuietly(a, Filling(p, 10))
    ensures ReachesQuietly(a, Draining(p, 0, Grown(p.minThr, 0), 0, 0))
  {
    var s := Filling(p, 10);
    assert !AnyAsleep(s.threads);
    var t := s.(manager := Sampled(10, p.minThr, 0));
    ThenSample(a, s, t);
    Then(a, t, DecideGrowth);
    ScanPastStarted(p, 0);
    ScanStarts(p, p.minThr);
    WrapOnce(0, p.cells);
    assert Jobs(0) == [] && Done(0) == multiset{};
  }

  lemma LockFirst(p: Setup, s: State, section: Section)
    requires p.CanGrow() && RingOk(s.mem) && s.producers == [Outside]
    requires s.threads == Table(p, 0, Free, p.Peak(), Starting)
    requires section == LoopSection(s.mem) && section.next.Holding?
    ensures LockWorker(s, 0) ==
            s.(mem := section.mem, threads := s.threads[0 := section.next], started := s.started + section.taken)
  {
    assert WakeAllProducers([Outside]) == [Outside];
  }

  lemma RunOne(p: Setup, a: State, k: nat)
    requires p.CanGrow() && k < 10 && ReachesQuietly(a, Draining(p, k, Testing, 0, 0))
    ensures ReachesQuietly(a, Draining(p, k + 1, Testing, 0, 0))
  {
    var s := Draining(p, k, Testing, 0, 0);
    WrapOnce(k, p.cells);
    MemTake(p, k, 10 - k, p.Peak());
    OneMoreJob(k);
    LockFirst(p, s, LoopSection(s.mem));
    Then(a, s, WorkerLock(0));
    FinishOne(p, a, k);
  }

  /** The first thread holds task `k`, or is running it. */
  function Working(p: Setup, k: nat, worker: Worker, busy: int): State
    requires p.CanGrow() && k < 10
  {
    Draining(p, k + 1, Testing, 0, 0).(
      mem := Mem(p, (k + 1) % p.cells, 9 - k, p.Peak(), 0, busy),
      threads := Table(p, 0, Free, p.Peak(), Starting)[0 := worker],
      completed := Done(k))
  }

  lemma FinishOne(p: Setup, a: State, k: nat)
    requires p.CanGrow() && k < 10 && ReachesQuietly(a, Working(p, k, Holding(JOB), 0))
    ensures ReachesQuietly(a, Draining(p, k + 1, Testing, 0, 0))
  {
    var held, busy := Working(p, k, Holding(JOB), 0), Working(p, k, Busy(JOB), 1);
    WrapOnce(k + 1, p.cells);
    assert RingOk(held.mem) && RingOk(busy.mem);
    Then(a, held, StartTask(0));
    assert held.threads[0 := Busy(JOB)] == busy.threads;
    Then(a, busy, EndTask(0));
    OneMoreDone(k);
    assert busy.threads[0 := Starting] == Table(p, 0, Free, p.Peak(), Starting);
  }

  lemma {:induction false} DrainAll(p: Setup, a: State, k: nat)
    requires p.CanGrow() && k <= 10 && ReachesQuietly(a, Draining(p, k, Testing, 0, 0))
    ensures ReachesQuietly(a, Draining(p, 10, Testing, 0, 0))
    decreases 10 - k
  {
    if k < 10 {
      RunOne(p, a, k);
      DrainAll(p, a, k + 1);
    }
  }

  lemma DrainingIsOk(p: Setup, manager: Manager, waitExit: int, shrinks: nat)
    requires p.CanGrow()
    ensures var s := Draining(p, 10, manager, waitExit, shrinks); RingOk(s.mem) && !AnyAsleep(s.threads)
  {
    WrapOnce(10, p.cells);
    WrapOnce(10 % p.cells, p.cells);
  }

  /** The manager sees idle threads, asks for ten exits, and signals while nobody sleeps. */
  lemma AskForExits(p: Setup, a: State)
    requires p.CanGrow() && ReachesQuietly(a, Draining(p, 10, Testing, 0, 0))
    ensures ReachesQuietly(a, Draining(p, 10, Waking(10), 10, 1))
  {
    var s := Draining(p, 10, Testing, 0, 0);
    DrainingIsOk(p, Testing, 0, 0);
    var t := s.(manager := Sampled(0, p.Peak(), 0));
    ThenSample(a, s, t);
    Then(a, t, DecideGrowth);
    Then(a, s.(manager := Grown(p.Peak(), 0)), Manage(0));
  }

  /** `early` threads have retired, the next ones up to entry `j` have gone to sleep. */
  function Dozing(p: Setup, early: nat, j: nat, manager: Manager): State
    requires p.CanGrow() && early <= 10
  {
    Draining(p, 10, manager, 10 - early, 1).(
      mem := Mem(p, 10 % p.cells, 0, p.Peak() - early, 10 - early, 0),
      threads := seq(p.maxThr, i => if i < early then Leaving(true) else if i < j then Asleep
                                    else if i < p.Peak() then Starting else Free),
      retired := early)
  }

  lemma DozingIsOk(p: Setup, early: nat, j: nat, manager: Manager)
    requires p.CanGrow() && early <= 10
    ensures var s := Dozing(p, early, j, manager);
            RingOk(s.mem) && (j <= early ==> !AnyAsleep(s.threads))
  {
    WrapOnce(10, p.cells);
    WrapOnce(10 % p.cells, p.cells);
  }

  lemma SleepOne(p: Setup, a: State, early: nat, j: nat, manager: Manager)
    requires p.CanGrow() && early <= j < p.Peak() && early <= 10
    requires ReachesQuietly(a, Dozing(p, early, j, manager))
    ensures ReachesQuietly(a, Dozing(p, early, j + 1, manager))
  {
    var s := Dozing(p, early, j, manager);
    DozingIsOk(p, early, j, manager);
    Then(a, s, WorkerLock(j));
    assert s.threads[j := Asleep] == Dozing(p, early, j + 1, manager).threads;
    assert s.started + [] == s.started;
    assert LockWorker(s, j) == Dozing(p, early, j + 1, manager);
  }

  lemma {:induction false} AllSleep(p: Setup, a: State, early: nat, j: nat)
    requires p.CanGrow() && early <= j <= p.Peak() && early <= 10
    requires ReachesQuietly(a, Dozing(p, early, j, Testing))
    ensures ReachesQuietly(a, Dozing(p, early, p.Peak(), Testing))
    decreases p.Peak() - j
  {
    if j < p.Peak() {
      SleepOne(p, a, early, j, Testing);
      AllSleep(p, a, early, j + 1);
    }
  }

  lemma {:induction false} SignalNobody(p: Setup, a: State, early: nat, left: nat)
    requires p.CanGrow() && early <= 10 && ReachesQuietly(a, Dozing(p, early, early, Waking(left)))
    ensures ReachesQuietly(a, Dozing(p, early, early, Testing))
    decreases left
  {
    DozingIsOk(p, early, early, Waking(left));
    Then(a, Dozing(p, early, early, Waking(left)), Manage(0));
    if left > 0 {
      SignalNobody(p, a, early, left - 1);
    }
  }

  /** The first thread falls asleep just before the manager's first signal, and retires. */
  lemma RetireEarly(p: Setup, a: State)
    requires p.CanGrow() && ReachesQuietly(a, Dozing(p, 0, 0, Waking(10)))
    ensures ReachesQuietly(a, Dozing(p, 1, 1, Waking(9)))
  {
    SleepOne(p, a, 0, 0, Waking(10));
    var s := Dozing(p, 0, 1, Waking(10));
    DozingIsOk(p, 0, 1, Waking(10));
    assert s.threads[0] == Asleep;
    Then(a, s, Manage(0));
    var woken := s.(manager := Waking(9), threads := s.threads[0 := Woken]);
    assert woken.threads[0 := Leaving(true)] == Dozing(p, 1, 1, Waking(9)).threads;
    ThenRetire(a, woken, 0, Dozing(p, 1, 1, Waking(9)));
  }

  /** `r` sleepers were woken and retired, all but the early ones by the signal of a task. */
  function Spending(p: Setup, r: nat): State
    requires p.CanGrow() && p.Early() <= r
  {
    var queued := r - p.Early();
    State(Mem(p, 10 % p.cells, queued, p.Peak() - r, 10 - r, 0),
          Table(p, r, Leaving(true), p.Peak(), Asleep), [Outside],
          Testing, Jobs(10 + queued), Jobs(10), Done(10), r, 1, queued)
  }

  /** A task is added and its signal wakes thread `r`. */
  function Waked(p: Setup, r: nat): State
    requires p.CanGrow() && p.Early() <= r < p.Peak()
  {
    var s := Spending(p, r);
    s.(mem := Mem(p, 10 % p.cells, s.mem.size + 1, p.Peak() - r, 10 - r, 0),
       threads := s.threads[r := Woken],
       accepted := Jobs(10 + s.mem.size + 1))
  }

  lemma AddAndWake(p: Setup, a: State, r: nat)
    requires p.CanGrow() && p.Early() <= r < p.Peak() - p.minThr && ReachesQuietly(a, Spending(p, r))
    ensures ReachesQuietly(a, Waked(p, r))
  {
    var s := Spending(p, r);
    WrapOnce(10, p.cells);
    MemPut(p, 10 % p.cells, s.mem.size, p.Peak() - r, 10 - r);
    assert s.threads[r] == Asleep;
    OneMoreJob(10 + s.mem.size);
    ThenAdd(a, s, r, Waked(p, r));
  }

  lemma SpendOne(p: Setup, a: State, r: nat)
    requires p.CanGrow() && p.Early() <= r < p.Peak() - p.minThr && ReachesQuietly(a, Spending(p, r))
    ensures ReachesQuietly(a, Spending(p, r + 1))
  {
    AddAndWake(p, a, r);
    WrapOnce(10, p.cells);
    assert Waked(p, r).threads[r := Leaving(true)] == Spending(p, r + 1).threads;
    ThenRetire(a, Waked(p, r), r, Spending(p, r + 1));
  }

  lemma {:induction false} SpendAll(p: Setup, a: State, r: nat)
    requires p.CanGrow() && p.Early() <= r <= p.Peak() - p.minThr && ReachesQuietly(a, Spending(p, r))
    ensures ReachesQuietly(a, Spending(p, p.Peak() - p.minThr))
    decreases p.Peak() - p.minThr - r
  {
    if r < p.Peak() - p.minThr {
      SpendOne(p, a, r);
      SpendAll(p, a, r + 1);
    }
  }

  lemma SpendingStrands(p: Setup)
    requires p.CanGrow()
    ensures Stranded(Spending(p, p.Peak() - p.minThr))
  {
    WrapOnce(10, p.cells);
  }

  lemma FillGrowDrain(p: Setup, a: State)
    requires p.CanGrow() && a == Filling(p, 0)
    ensures ReachesQuietly(a, Draining(p, 10, Testing, 0, 0))
  {
    FillUp(p, 10);
    GrowToPeak(p, a);
    WrapOnce(0, p.cells);
    WrapOnce(10, p.cells);
    var s := Draining(p, 0, Grown(p.minThr, 0), 0, 0);
    assert !AnyAsleep(s.threads);
    Then(a, s, Manage(0));
    DrainAll(p, a, 0);
  }

  lemma GrowingPoolStrands(p: Setup)
    requires p.CanGrow()
    ensures ReachesQuietly(Filling(p, 0), Spending(p, p.Peak() - p.minThr))
    ensures Abandoned(Spending(p, p.Peak() - p.minThr))
  {
    var a, early := Filling(p, 0), p.Early();
    FillGrowDrain(p, a);
    AskForExits(p, a);
    assert Draining(p, 10, Waking(10), 10, 1).threads == Dozing(p, 0, 0, Waking(10)).threads;
    if early == 1 {
      RetireEarly(p, a);
    }
    SignalNobody(p, a, early, 10 - early);
    AllSleep(p, a, early, early);
    assert Dozing(p, early, p.Peak(), Testing).threads == Spending(p, early).threads;
    SpendAll(p, a, early);
    SpendingStrands(p);
    StrandedIsAbandoned(Spending(p, p.Peak() - p.minThr));
  }

  lemma EmptyPoolStrands(p: Setup)
    requires p.minThr == 0 && p.cells > 0
    ensures ReachesQuietly(Filling(p, 0), Filling(p, 1)) && Abandoned(Filling(p, 1))
  {
    FillUp(p, 1);
    WrapOnce(1, p.cells);
    StrandedIsAbandoned(Filling(p, 1));
  }

  // ---------------------------------------------------------------- the exact condition

  ghost predicate CreatedBy(s: State, p: Setup) {
    && Initial(s)
    && s.mem.minThr == p.minThr
    && s.mem.maxThr == p.maxThr
    && |s.mem.cells| == p.cells
  }

  ghost predicate CanAbandon(p: Setup) {
    exists s, t :: CreatedBy(s, p) && Reaches(s, t) && Abandoned(t)
  }

  ghost predicate CanAbandonQuietly(p: Setup) {
    exists s, t :: CreatedBy(s, p) && ReachesQuietly(s, t) && Abandoned(t)
  }

  lemma OnlyTheseAbandon(p: Setup, s: State, t: State)
    requires CreatedBy(s, p) && Reaches(s, t) && Abandoned(t)
    ensures (p.minThr == 0 && p.cells > 0) || p.CanGrow()
  {
    var steps :| Leads(s, steps, t);
    if p.cells == 0 {
      NoCellsNeverAbandons(s, steps, t);
    } else if p.minThr > 0 && !p.CanGrow() {
      CannotGrowNeverAbandons(s, steps, t);
    }
  }

  /** Tasks can be abandoned exactly in pools with no minimum thread and room for a task, and
      in pools that can grow and can queue the ten tasks that make them grow.  Spurious wakeups
      neither cause it nor are needed for it. */
  lemma StrandingCondition(p: Setup)
    requires p.minThr <= p.maxThr
    ensures CanAbandon(p) <==> (p.minThr == 0 && p.cells > 0) || p.CanGrow()
    ensures CanAbandonQuietly(p) <==> CanAbandon(p)
  {
    if CanAbandonQuietly(p) {
      var s, t :| CreatedBy(s, p) && ReachesQuietly(s, t) && Abandoned(t);
      assert Reaches(s, t);
    }
    if CanAbandon(p) {
      var s, t :| CreatedBy(s, p) && Reaches(s, t) && Abandoned(t);
      OnlyTheseAbandon(p, s, t);
    }
    if p.cells > 0 && (p.minThr == 0 || p.CanGrow()) {
      FillingStarts(p);
      assert CreatedBy(Filling(p, 0), p);
      if p.minThr == 0 {
        EmptyPoolStrands(p);
      } else {
        GrowingPoolStrands(p);
      }
    }
  }
}
