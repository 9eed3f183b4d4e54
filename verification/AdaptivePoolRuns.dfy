/**
 What the adaptive pool's manager decides over whole runs, in terms of the thread table at the
 moments it looked, how exit requests are used up, and what is left to happen after shutdown.
 */
module AdaptivePoolRuns {
  import opened Totals
  import opened AdaptivePool

  // ---------------------------------------------------------------- what the manager saw

  /** The table at the manager's last looks: queued tasks and live workers at the first
      snapshot of its cycle, busy workers at the second. */
  datatype Seen = Seen(queue: int, live: int, busy: int)

  /** Workers in the pool; after shutdown the counter no longer follows those that leave. */
  ghost function LiveWorkers(s: State): int {
    if s.mem.shutdown then s.mem.live else Sum(s.threads, OneIfCounted)
  }

  ghost function Look(seen: Seen, s: State, step: Step): Seen
    requires RingOk(s.mem)
  {
    if step.Manage? && s.manager == Napping then seen.(queue := |Contents(s.mem)|, live := LiveWorkers(s))
    else if step.Manage? && s.manager.Counted? then seen.(busy := Sum(s.threads, OneIfBusy))
    else seen
  }

  ghost function SeenAfter(seen: Seen, s: State, steps: seq<Step>, t: State): Seen
    requires Leads(s, steps, t)
    decreases |steps|
  {
    if steps == [] then seen
    else SeenAfter(Look(seen, s, steps[0]), Apply(s, steps[0]), steps[1..], t)
  }

  /** More than half of the workers were not busy, and more were live than the minimum. */
  predicate TooMany(seen: Seen, minThr: int) {
    2 * seen.busy < seen.live && seen.live > minThr
  }

  /** How many cycles of the run ended after the manager had seen too many workers. */
  ghost function Decisions(seen: Seen, s: State, steps: seq<Step>, t: State): nat
    requires Leads(s, steps, t)
    decreases |steps|
  {
    if steps == [] then 0
    else
      (if steps[0].Manage? && s.manager.Grown? && TooMany(seen, s.mem.minThr) then 1 else 0)
      + Decisions(Look(seen, s, steps[0]), Apply(s, steps[0]), steps[1..], t)
  }

  /** The snapshots the manager carries are what the table showed. */
  predicate SnapshotsOk(manager: Manager, seen: Seen) {
    match manager
    case Counted(queue, live) => queue == seen.queue && live == seen.live
    case Sampled(queue, live, busy) => queue == seen.queue && live == seen.live && busy == seen.busy
    case Grown(live, busy) => live == seen.live && busy == seen.busy
    case _ => true
  }

  lemma OthersLeaveManager(s: State, step: Step)
    requires RingOk(s.mem) && Enabled(s, step) && !step.Manage? && !step.DecideGrowth?
    ensures Apply(s, step).manager == s.manager && Apply(s, step).shrinks == s.shrinks
  {
  }

  lemma StepKeepsSnapshots(s: State, step: Step, seen: Seen)
    requires Inv(s) && Enabled(s, step) && SnapshotsOk(s.manager, seen)
    ensures SnapshotsOk(Apply(s, step).manager, Look(seen, s, step))
  {
    if !step.Manage? && !step.DecideGrowth? {
      OthersLeaveManager(s, step);
    }
  }

  lemma {:induction false} RunKeepsSnapshots(s: State, steps: seq<Step>, t: State, seen: Seen)
    requires Inv(s) && Leads(s, steps, t) && SnapshotsOk(s.manager, seen)
    ensures SnapshotsOk(t.manager, SeenAfter(seen, s, steps, t)) && Inv(t)
    decreases |steps|
  {
    if steps != [] {
      StepKeepsSnapshots(s, steps[0], seen);
      StepKeepsInv(s, steps[0]);
      RunKeepsSnapshots(Apply(s, steps[0]), steps[1..], t, Look(seen, s, steps[0]));
    }
  }

  // ---------------------------------------------------------------- shrinking

  /** At the end of a cycle the manager asks for ten exits exactly when less than half of the
      workers live at its first look were busy at its second, and they exceeded the minimum;
      otherwise it changes nothing. */
  lemma ShrinkFollowsTable(start: State, steps: seq<Step>, s: State, seen: Seen, wakes: nat)
    requires Initial(start) && Leads(start, steps, s)
    requires s.manager.Grown? && Enabled(s, Manage(wakes))
    ensures RingOk(s.mem)
    ensures var saw, t := SeenAfter(seen, start, steps, s), Apply(s, Manage(wakes));
            if 2 * saw.busy < saw.live && saw.live > s.mem.minThr
            then t == s.(manager := Waking(10), shrinks := s.shrinks + 1, mem := s.mem.(waitExit := 10))
            else t == s.(manager := Testing)
  {
    InitialInv(start);
    RunKeepsSnapshots(start, steps, s, seen);
  }

  lemma StepCountsShrinks(s: State, step: Step, seen: Seen)
    requires Inv(s) && Enabled(s, step) && SnapshotsOk(s.manager, seen)
    ensures Apply(s, step).shrinks ==
            s.shrinks + if step.Manage? && s.manager.Grown? && TooMany(seen, s.mem.minThr) then 1 else 0
  {
    if !step.Manage? && !step.DecideGrowth? {
      OthersLeaveManager(s, step);
    }
  }

  lemma {:induction false} RunCountsShrinks(s: State, steps: seq<Step>, t: State, seen: Seen)
    requires Inv(s) && Leads(s, steps, t) && SnapshotsOk(s.manager, seen)
    ensures t.shrinks == s.shrinks + Decisions(seen, s, steps, t)
    decreases |steps|
  {
    if steps != [] {
      StepKeepsSnapshots(s, steps[0], seen);
      StepCountsShrinks(s, steps[0], seen);
      StepKeepsInv(s, steps[0]);
      RunCountsShrinks(Apply(s, steps[0]), steps[1..], t, Look(seen, s, steps[0]));
    }
  }

  /** Over every run the shrink decisions are exactly the cycles that saw too many workers.  A
      pool that stays at least half busy, or at its minimum, never asks a worker to leave and
      never loses one. */
  lemma ShrinksFollowTable(start: State, steps: seq<Step>, t: State, seen: Seen)
    requires Initial(start) && Leads(start, steps, t)
    ensures t.shrinks == Decisions(seen, start, steps, t)
    ensures Decisions(seen, start, steps, t) == 0 ==> t.mem.waitExit == 0 && t.retired == 0
  {
    InitialInv(start);
    RunCountsShrinks(start, steps, t, seen);
    RunKeepsInv(start, steps, t);
  }

  // ---------------------------------------------------------------- growing

  /** A cycle starts threads exactly when its first look found ten tasks queued and fewer live
      workers than the maximum, and then ten of them, or one per free entry. */
  lemma GrowthFollowsTable(start: State, steps: seq<Step>, s: State, seen: Seen)
    requires Initial(start) && Leads(start, steps, s)
    requires s.manager.Sampled? && !s.mem.shutdown
    ensures RingOk(s.mem)
    ensures var saw, t := SeenAfter(seen, start, steps, s), Apply(s, DecideGrowth);
            Sum(t.threads, OneIfCounted) - Sum(s.threads, OneIfCounted) ==
            if saw.queue < 10 || saw.live >= s.mem.maxThr then 0
            else if Sum(s.threads, OneIfFree) <= 10 then Sum(s.threads, OneIfFree) else 10
  {
    InitialInv(start);
    RunKeepsSnapshots(start, steps, s, seen);
    GrowthIsExact(s);
    GrowKeepsCounters(s);
  }

  // ---------------------------------------------------------------- exit requests

  /** Sections that workers entered by returning from their wait. */
  ghost function Wakeups(s: State, steps: seq<Step>, t: State): nat
    requires Leads(s, steps, t)
    decreases |steps|
  {
    if steps == [] then 0
    else
      (if steps[0].WorkerLock? && s.threads[steps[0].w] == Woken then 1 else 0)
      + Wakeups(Apply(s, steps[0]), steps[1..], t)
  }

  lemma StepUsesRequest(s: State, step: Step)
    requires RingOk(s.mem) && Enabled(s, step) && 0 <= s.mem.waitExit
    ensures s.shrinks <= Apply(s, step).shrinks
    ensures Apply(s, step).shrinks == s.shrinks ==>
              Apply(s, step).mem.waitExit ==
              if step.WorkerLock? && s.threads[step.w] == Woken && s.mem.waitExit > 0
              then s.mem.waitExit - 1 else s.mem.waitExit
  {
  }

  /** Until the next shrink decision every wakeup uses up one exit request, whether or not the
      woken worker retires. */
  lemma {:induction false} WakeupsUseRequests(s: State, steps: seq<Step>, t: State)
    requires Leads(s, steps, t) && 0 <= s.mem.waitExit
    ensures s.shrinks <= t.shrinks
    ensures t.shrinks == s.shrinks ==>
              t.mem.waitExit ==
              if Wakeups(s, steps, t) <= s.mem.waitExit then s.mem.waitExit - Wakeups(s, steps, t) else 0
    decreases |steps|
  {
    if steps != [] {
      StepUsesRequest(s, steps[0]);
      var next := Apply(s, steps[0]);
      if next.shrinks == s.shrinks {
        WakeupsUseRequests(next, steps[1..], t);
      } else {
        ShrinksOnlyGrow(next, steps[1..], t);
      }
    }
  }

  lemma {:induction false} ShrinksOnlyGrow(s: State, steps: seq<Step>, t: State)
    requires Leads(s, steps, t)
    ensures s.shrinks <= t.shrinks
    decreases |steps|
  {
    if steps != [] {
      if !steps[0].Manage? && !steps[0].DecideGrowth? {
        OthersLeaveManager(s, steps[0]);
      }
      ShrinksOnlyGrow(Apply(s, steps[0]), steps[1..], t);
    }
  }

  // ---------------------------------------------------------------- after shutdown

  /** After shutdown a worker that reaches its lock leaves, and a caller is turned away and
      wakes every sleeper so that it can leave too. */
  lemma StepAfterShutdown(s: State, step: Step)
    requires RingOk(s.mem) && Enabled(s, step) && s.mem.shutdown
    ensures var t := Apply(s, step);
            && t.mem.shutdown
            && t.started == s.started && t.accepted == s.accepted && Contents(t.mem) == Contents(s.mem)
            && (step.WorkerLock? ==> t.threads[step.w].Leaving?)
            && (step.ProducerLock? ==> t.producers[step.p] == Outside && !AnyAsleep(t.threads))
  {
    var t := Apply(s, step);
    assert t.mem.cells == s.mem.cells && t.mem.front == s.mem.front && t.mem.size == s.mem.size;
  }

  /** Whatever runs after shutdown, nothing is accepted or started any more: what was queued
      then is exactly what is abandoned. */
  lemma {:induction false} NothingStartsAfterShutdown(s: State, steps: seq<Step>, t: State)
    requires RingOk(s.mem) && s.mem.shutdown && Leads(s, steps, t)
    ensures RingOk(t.mem) && t.mem.shutdown
    ensures t.started == s.started && t.accepted == s.accepted && Contents(t.mem) == Contents(s.mem)
    decreases |steps|
  {
    if steps != [] {
      StepAfterShutdown(s, steps[0]);
      StepKeepsRing(s, steps[0]);
      NothingStartsAfterShutdown(Apply(s, steps[0]), steps[1..], t);
    }
  }

  lemma StepKeepsRing(s: State, step: Step)
    requires RingOk(s.mem) && Enabled(s, step) && s.mem.shutdown
    ensures RingOk(Apply(s, step).mem)
  {
  }

  /** The steps the manager may still take before it stops. */
  function ManagerLeft(manager: Manager): nat {
    match manager
    case Stopped => 0
    case Testing => 1
    case Waking(left) => left + 2
    case Grown(_, _) => 13
    case Sampled(_, _, _) => 14
    case Counted(_, _) => 15
    case Napping => 16
  }

  function ManagerSteps(steps: seq<Step>): nat {
    if steps == [] then 0
    else (if steps[0].Manage? || steps[0].DecideGrowth? then 1 else 0) + ManagerSteps(steps[1..])
  }

  lemma ManagerStepAfterShutdown(s: State, step: Step)
    requires RingOk(s.mem) && Enabled(s, step) && s.mem.shutdown
    ensures ManagerLeft(Apply(s, step).manager) + (if step.Manage? || step.DecideGrowth? then 1 else 0)
            <= ManagerLeft(s.manager)
  {
    if !step.Manage? && !step.DecideGrowth? {
      OthersLeaveManager(s, step);
    }
  }

  /** After shutdown the manager finishes its cycle and stops. */
  lemma {:induction false} ManagerStops(s: State, steps: seq<Step>, t: State)
    requires RingOk(s.mem) && s.mem.shutdown && Leads(s, steps, t)
    ensures ManagerSteps(steps) + ManagerLeft(t.manager) <= ManagerLeft(s.manager)
    decreases |steps|
  {
    if steps != [] {
      ManagerStepAfterShutdown(s, steps[0]);
      StepAfterShutdown(s, steps[0]);
      StepKeepsRing(s, steps[0]);
      ManagerStops(Apply(s, steps[0]), steps[1..], t);
    }
  }
}
