/** No lost wake-up, work conservation, and the drain after closure. */
module GatewayProgress {
  import opened Wrappers
  import opened Budgets
  import opened Responses
  import opened Queueing
  import opened Gateway
  import opened GatewayEffects
  import opened GatewayInvariants

  /** The scheduler waits, or is about to, and no notification is there for it. */
  predicate Unnotified(s: State) {
    (s.scheduler.Parked? && !s.scheduler.woken) || (s.scheduler.Leaving? && !s.stored)
  }

  /** Besides, no caller still owes it one. */
  predicate Asleep(s: State) {
    Unnotified(s) && s.notifying == {}
  }

  predicate TimerCovers(timer: Option<nat>, w: Waiting) {
    && (forall i | 0 <= i < |w.interactive| :: timer.Some? && timer.value <= w.interactive[i].Deadline())
    && (forall i | 0 <= i < |w.agents| :: timer.Some? && timer.value <= w.agents[i].Deadline())
  }

  /** A sleeping scheduler misses nothing: queued jobs wait only because every slot is taken, the timer is no
      later than any of their deadlines, and an idle gateway that is closing has already returned. */
  predicate Awake(s: State) {
    && (Asleep(s) ==>
          (s.Queued() == 0 || s.Running() == s.cfg.limit) && TimerCovers(s.scheduler.timer, s.books.waiting))
    && (Unnotified(s) && s.closing && s.owner.Alive? ==> s.Running() > 0 || s.Queued() > 0)
  }

  lemma DeadlineCovers(w: Waiting)
    ensures TimerCovers(NextDeadline(w), w)
  {
    assert forall i | 0 <= i < |w.interactive| :: w.Of(Interactive)[i] == w.interactive[i];
    assert forall i | 0 <= i < |w.agents| :: w.Of(Agent)[i] == w.agents[i];
  }

  lemma RemovedAwake(s: State, r: Removal)
    requires Awake(s) && Removable(s.books, r)
    requires s.scheduler.Parked? || s.scheduler.Leaving? ==> !(s.closing && s.owner.Alive?)
    ensures Awake(Removed(s, r))
  {
    var t, jobs := Removed(s, r), s.books.waiting.Of(r.cls);
    assert forall x | x in RemoveAt(jobs, r.index) :: x in jobs;
    assert t.Queued() == s.Queued() - 1;
    if Asleep(s) {
      forall i | 0 <= i < |t.books.waiting.Of(r.cls)|
        ensures s.scheduler.timer.Some? && s.scheduler.timer.value <= t.books.waiting.Of(r.cls)[i].Deadline()
      {
        assert t.books.waiting.Of(r.cls)[i] in jobs;
      }
    }
  }

  lemma PassEndedAwake(s: State)
    requires Shape(s) && Enabled(s, Leave)
    ensures Awake(PassEnded(s))
  {
    DeadlineCovers(s.books.waiting);
  }

  predicate MovesSleep(step: Step) {
    step.Drop? || step.RejectOne? || step.HandOff? || step.Leave? || step.Push?
  }

  /** The steps that move the scheduler, notify it or close the gateway. */
  predicate Drives(step: Step) {
    || step.Join? || step.Lock? || step.Park? || step.WakeNotified? || step.WakeJoin? || step.WakeTimer?
    || step.Abort? || step.Notify? || step.Close? || step.Flag?
  }

  lemma NotifyAwake(s: State, step: Step)
    requires Shape(s) && Awake(s) && Enabled(s, step) && (step.Notify? || step.Close? || step.Flag?)
    ensures Awake(Apply(s, step))
  {
    hide TimerCovers;
  }

  lemma ParkAwake(s: State)
    requires Shape(s) && Awake(s) && Enabled(s, Park)
    ensures Awake(Apply(s, Park))
  {
    hide TimerCovers;
  }

  /** A scheduler that is up misses nothing. */
  lemma WakeAwake(s: State, step: Step)
    requires Enabled(s, step) && Drives(step) && !step.Park? && !step.Notify? && !step.Close? && !step.Flag?
    ensures Awake(Apply(s, step))
  {
    assert !Apply(s, step).scheduler.Parked? && !Apply(s, step).scheduler.Leaving?;
    hide TimerCovers, Apply, Enabled;
  }

  /** Nothing the scheduler sleeps by has changed. */
  predicate SameSleep(s: State, t: State) {
    && t.books.waiting == s.books.waiting && t.scheduler == s.scheduler && t.stored == s.stored
    && t.notifying == s.notifying && t.closing == s.closing && (t.owner.Alive? ==> s.owner.Alive?)
    && t.Running() == s.Running() && t.cfg == s.cfg
  }

  lemma TaskSleep(s: State, step: Step)
    requires Enabled(s, step) && (step.Complete? || step.Reply? || step.Lose?)
    ensures SameSleep(s, Apply(s, step))
  {
    hide RemoveAt, Execute, Release1, LostReply;
    match step
    case Complete(_, _) =>
    case Reply(_) =>
    case Lose(_) =>
  }

  lemma TurnedSleep(s: State, step: Step)
    requires Enabled(s, step)
    requires step.RefuseEarly? || step.SeeClosed? || step.Exhausted? || step.Acquire? || step.Full? || step.Resize?
    ensures SameSleep(s, Apply(s, step))
  {
    hide RefusedEarly, Release1, Acquire1, Resized, Admits, Overloaded, GatewayClosed;
  }

  lemma SleepStays(s: State, step: Step)
    requires Enabled(s, step) && !MovesSleep(step) && !Drives(step)
    ensures SameSleep(s, Apply(s, step))
  {
    if step.Complete? || step.Reply? || step.Lose? {
      TaskSleep(s, step);
      hide Enabled, Apply, SameSleep;
    } else if step.RefuseEarly? || step.SeeClosed? || step.Exhausted? || step.Acquire? || step.Full? || step.Resize? {
      TurnedSleep(s, step);
      hide Enabled, Apply, SameSleep;
    } else {
      assert step.Tick? || step.Depart? || step.Enter? || step.SeeOpen? || step.SendAbort? || step.RejectLock?
             || step.RejectDone? || step.FindNone?;
    }
  }

  lemma OtherStepsAwake(s: State, step: Step)
    requires Shape(s) && Awake(s) && Enabled(s, step) && !MovesSleep(step)
    ensures Awake(Apply(s, step))
  {
    if step.Notify? || step.Close? || step.Flag? {
      NotifyAwake(s, step);
    } else if step.Park? {
      ParkAwake(s);
    } else if Drives(step) {
      WakeAwake(s, step);
    } else {
      SleepStays(s, step);
    }
    hide Enabled, Apply, Shape, TimerCovers;
  }

  /** No wake-up is lost under any interleaving. */
  lemma AwakeStep(s: State, step: Step)
    requires Shape(s) && Awake(s) && Enabled(s, step)
    ensures Awake(Apply(s, step))
  {
    hide Execute, RefusedEarly, Stays, MayDrop, Remove, RemoveAt, NextDeadline, TimerCovers, NextStreak, Chosen;
    match step
    case Drop(r) => RemovedAwake(s, r);
    case RejectOne(cls) => RemovedAwake(s, Removal(cls, 0, s.books.waiting.Of(cls)[0], Refused));
    case HandOff =>
    case Push =>
    case Leave => PassEndedAwake(s);
    case _ => OtherStepsAwake(s, step);
  }

  // ---------- The drain after closure ----------

  /** Work left once no caller can push: two for a queued job (selection and completion), one for a task. */
  function WorkLeft(s: State): nat {
    2 * s.Queued() + s.Running()
  }

  predicate Drains(step: Step) {
    step.Drop? || step.RejectOne? || step.HandOff? || step.Join? || step.WakeJoin?
  }

  lemma SealedMoves(s: State, step: Step)
    requires Sealed(s) && Enabled(s, step) && MovesPermits(step)
    ensures Sealed(Apply(s, step))
    ensures WorkLeft(Apply(s, step)) <= WorkLeft(s)
    ensures Drains(step) ==> WorkLeft(Apply(s, step)) < WorkLeft(s)
  {
    if TakesOut(step) {
      hide Apply, Enabled, Removable, Removed, WorkLeft;
      RemovalStep(s, step);
      RemovedWork(s, RemovalOf(s, step));
    } else if step.HandOff? {
      hide Apply, Enabled;
      HandOffEffect(s);
    } else {
      SealedTask(s, step);
    }
  }

  lemma SealedTask(s: State, step: Step)
    requires Sealed(s) && Enabled(s, step) && MovesPermits(step) && !TakesOut(step) && !step.HandOff?
    ensures Sealed(Apply(s, step)) && WorkLeft(Apply(s, step)) <= WorkLeft(s) && !Drains(step)
  {
    hide Execute, LostReply, Release1, Resized, Admits;
    match step
    case Push => assert false;
    case Acquire => assert false;
    case Full => assert false;
    case Complete(_, _) =>
    case Lose(_) =>
    case Resize(_, _) =>
  }

  lemma RemovedWork(s: State, r: Removal)
    requires Removable(s.books, r)
    ensures WorkLeft(Removed(s, r)) == WorkLeft(s) - 2
    ensures Removed(s, r).closing == s.closing && Removed(s, r).lock == s.lock
  {
  }

  lemma SealedEntry(s: State, step: Step)
    requires Sealed(s) && Enabled(s, step) && (step.Enter? || step.SeeOpen?)
    ensures Sealed(Apply(s, step)) && WorkLeft(Apply(s, step)) == WorkLeft(s)
  {
  }

  lemma SealedQuiet(s: State, step: Step)
    requires Sealed(s) && Enabled(s, step) && !MovesPermits(step)
    ensures Sealed(Apply(s, step)) && WorkLeft(Apply(s, step)) <= WorkLeft(s)
    ensures Drains(step) ==> WorkLeft(Apply(s, step)) < WorkLeft(s)
  {
    hide Apply, Enabled;
    Kinds(step);
    if ByScheduler(step) {
      SchedulerFrame(s, step);
    } else if ByTask(step) {
      TaskFrame(s, step);
    } else if Refuses(step) {
      RefusalFrame(s, step);
    } else if Around(step) {
      AroundFrame(s, step);
    } else {
      SealedEntry(s, step);
    }
  }

  /** Once sealed, a gateway stays sealed, its work never grows, and every expiry, discard, hand-off and join
      strictly shrinks it. */
  lemma SealedStep(s: State, step: Step)
    requires Sealed(s) && Enabled(s, step)
    ensures Sealed(Apply(s, step))
    ensures WorkLeft(Apply(s, step)) <= WorkLeft(s)
    ensures Drains(step) ==> WorkLeft(Apply(s, step)) < WorkLeft(s)
  {
    hide Apply, Enabled, Sealed, WorkLeft;
    if MovesPermits(step) {
      SealedMoves(s, step);
    } else {
      SealedQuiet(s, step);
    }
  }

  ghost function DrainSteps(steps: seq<Step>): nat {
    if steps == [] then 0 else (if Drains(steps[0]) then 1 else 0) + DrainSteps(steps[1..])
  }

  /** So from closure on, a run holds at most `WorkLeft` expiries, hand-offs and joins. */
  lemma {:induction false} DrainIsBounded(s: State, steps: seq<Step>)
    requires Sealed(s) && IsRun(s, steps)
    ensures Sealed(After(s, steps))
    ensures DrainSteps(steps) + WorkLeft(After(s, steps)) <= WorkLeft(s)
    decreases steps
  {
    if steps != [] {
      SealedStep(s, steps[0]);
      hide Apply, Enabled, WorkLeft, Sealed, Drains;
      DrainIsBounded(Apply(s, steps[0]), steps[1..]);
    }
  }
}
