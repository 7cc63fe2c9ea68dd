/** What every step of the gateway keeps. Each invariant is kept by every step on its own lemma; `Inv` is their
    conjunction and holds in every reachable state. */
module GatewayInvariants {
  import opened Wrappers
  import opened Budgets
  import opened Responses
  import opened Queueing
  import opened Gateway
  import opened GatewayEffects

  // ---------- Shape ----------

  /** No caller may still push: closure has been seen by whoever holds the lock. */
  predicate Sealed(s: State) {
    s.closing && !s.lock.Open? && !s.lock.Holding?
  }

  predicate Shape(s: State) {
    && s.cfg.limit >= 1
    && s.Running() <= s.cfg.limit
    && s.streak <= 3
    && (s.lock.Scheduling? <==> s.scheduler.Pass?)
    && (s.scheduler.Parked? && !s.scheduler.woken ==> !s.stored)
    && (s.lock.Rejecting? ==> s.owner.AbortSent?)
    && (!s.owner.Alive? ==> s.closing)
    && (s.scheduler.Aborted? ==> !s.owner.Alive?)
    && (s.closing && s.owner.Alive? ==> Sealed(s))
    && (s.scheduler.Returned? || s.owner.Rejected? ==> Sealed(s) && s.Queued() == 0)
    && (s.scheduler.Returned? ==> s.Running() == 0)
  }

  lemma StreakBounded(mode: Mode, streak: nat, w: Waiting, cls: Class)
    requires streak <= 3 && Chosen(mode, streak, w) == Some(cls)
    ensures NextStreak(mode, streak, w, cls) <= 3
  {
  }

  /** The steps that move a permit, a queued job or a budget. */
  predicate MovesPermits(step: Step) {
    || step.Drop? || step.RejectOne? || step.Push? || step.HandOff? || step.Complete? || step.Lose?
    || step.Acquire? || step.Full? || step.Resize?
  }

  lemma ShapeQueues(s: State, step: Step)
    requires Shape(s) && Enabled(s, step) && MovesJob(step)
    ensures Shape(Apply(s, step))
  {
    if step.HandOff? {
      StreakBounded(s.cfg.mode, s.streak, s.books.waiting, s.Select().value);
    }
    hide Remove, RemoveAt, NextStreak, Stays, MayDrop, Chosen, Release1;
    match step
    case Push =>
    case Drop(_) =>
    case RejectOne(_) =>
    case HandOff =>
  }

  lemma ShapePass(s: State, step: Step)
    requires Shape(s) && Enabled(s, step) && (step.Join? || step.Lock? || step.FindNone? || step.Leave?)
    ensures Shape(Apply(s, step))
  {
    hide NextDeadline, Chosen;
    match step
    case Join =>
    case Lock =>
    case FindNone =>
    case Leave =>
  }

  lemma ShapeWait(s: State, step: Step)
    requires Shape(s) && Enabled(s, step)
    requires step.Park? || step.WakeNotified? || step.WakeJoin? || step.WakeTimer? || step.Abort?
    ensures Shape(Apply(s, step))
  {
    match step
    case Park =>
    case WakeNotified =>
    case WakeJoin =>
    case WakeTimer =>
    case Abort =>
  }

  lemma ShapeAround(s: State, step: Step)
    requires Shape(s) && Enabled(s, step) && Around(step)
    ensures Shape(Apply(s, step))
  {
    if step.Notify? || step.Close? || step.Flag? {
      ShapeNotified(s, step);
      hide Apply, Enabled, Shape;
    }
  }

  lemma ShapeNotified(s: State, step: Step)
    requires Shape(s) && Enabled(s, step) && (step.Notify? || step.Close? || step.Flag?)
    ensures Shape(Apply(s, step))
  {
    match step
    case Notify(_) =>
    case Close =>
    case Flag =>
  }

  lemma ShapeEntry(s: State, step: Step)
    requires Shape(s) && Enabled(s, step) && Enters(step)
    ensures Shape(Apply(s, step))
  {
    hide Admits, Acquire1, Resized;
    match step
    case Enter(_, _) =>
    case SeeOpen =>
    case Acquire =>
    case Resize(_, _) =>
  }

  /** Every step keeps the shape of the gateway. */
  lemma ShapeStep(s: State, step: Step)
    requires Shape(s) && Enabled(s, step)
    ensures Shape(Apply(s, step))
  {
    Kinds(step);
    if ByTask(step) {
      TaskFrame(s, step);
    } else if Refuses(step) {
      RefusalFrame(s, step);
    } else if MovesJob(step) {
      ShapeQueues(s, step);
    } else if Enters(step) {
      ShapeEntry(s, step);
    } else if Around(step) {
      ShapeAround(s, step);
    } else if step.Join? || step.Lock? || step.FindNone? || step.Leave? {
      ShapePass(s, step);
    } else {
      ShapeWait(s, step);
    }
    hide Apply, Enabled;
  }

  // ---------- Permits ----------

  function LockHeld(lock: Holder, key: Key): nat {
    if lock.Holding? && lock.key == key then 1 else 0
  }

  /** The permits of budget `key` that are out: queued jobs, executing jobs, and a caller about to push. */
  function PermitsOut(s: State, key: Key): nat {
    Held(s.books.waiting.interactive, key) + Held(s.books.waiting.agents, key) + Held(s.executing, key)
    + LockHeld(s.lock, key)
  }

  ghost predicate Conserved(s: State) {
    && Known(s.books.waiting.interactive, s.books.ledger)
    && Known(s.books.waiting.agents, s.books.ledger)
    && Known(s.executing, s.books.ledger)
    && (s.lock.Entered? || s.lock.Open? || s.lock.Holding? ==> s.lock.key in s.books.ledger)
    && forall k | k in s.books.ledger :: s.books.ledger[k].outstanding == PermitsOut(s, k)
  }

  /** Every other step leaves jobs and budgets alone, and no permit changes hands at the lock. */
  lemma QuietStep(s: State, step: Step)
    requires Enabled(s, step) && !MovesPermits(step)
    ensures var t := Apply(s, step);
            && t.books.waiting == s.books.waiting && t.books.ledger == s.books.ledger && t.executing == s.executing
            && (t.lock == s.lock || (!s.lock.Holding? && !t.lock.Holding?))
            && (t.lock.Entered? && t.lock != s.lock ==> t.lock.key in s.books.ledger)
            && (t.lock.Open? && t.lock != s.lock ==> s.lock.Entered? && t.lock.key == s.lock.key)
  {
    Kinds(step);
    if Refuses(step) {
      RefusalFrame(s, step);
    } else if step.Reply? {
      ReplyFrame(s, step);
    } else if step.Enter? || step.SeeOpen? {
      EntryOpens(s, step);
      EntryFrame(s, step);
    } else if ByScheduler(step) {
      SchedulerFrame(s, step);
    } else {
      AroundFrame(s, step);
    }
    hide Apply, Enabled;
  }

  lemma EntryOpens(s: State, step: Step)
    requires Enabled(s, step) && (step.Enter? || step.SeeOpen?)
    ensures !s.lock.Holding? && !Apply(s, step).lock.Holding?
    ensures Apply(s, step).lock.Entered? ==> Apply(s, step).lock.key in s.books.ledger
    ensures Apply(s, step).lock.Open? ==> s.lock.Entered? && Apply(s, step).lock.key == s.lock.key
  {
  }

  lemma ConservedFrame(s: State, t: State)
    requires Conserved(s)
    requires t.books.waiting == s.books.waiting && t.books.ledger == s.books.ledger && t.executing == s.executing
    requires t.lock == s.lock || (!s.lock.Holding? && !t.lock.Holding?)
    requires t.lock.Entered? || t.lock.Open? ==> t.lock.key in s.books.ledger
    ensures Conserved(t)
  {
    assert forall k :: PermitsOut(t, k) == PermitsOut(s, k);
  }

  lemma KnownRemove(jobs: seq<Job>, i: nat, ledger: Ledger)
    requires i < |jobs| && Known(jobs, ledger)
    ensures Known(RemoveAt(jobs, i), ledger)
  {
  }

  lemma KnownAppend(jobs: seq<Job>, job: Job, ledger: Ledger)
    requires Known(jobs, ledger) && job.permit in ledger
    ensures Known(jobs + [job], ledger)
  {
  }

  lemma KnownSame(ledger: Ledger, other: Ledger)
    requires ledger.Keys == other.Keys
    ensures forall jobs :: Known(jobs, ledger) ==> Known(jobs, other)
  {
  }

  lemma ReleaseOne(ledger: Ledger, key: Key)
    requires key in ledger
    ensures Release1(ledger, key).Keys == ledger.Keys
    ensures forall k | k in ledger ::
              Release1(ledger, key)[k].outstanding == ledger[k].outstanding - (if k == key then 1 else 0)
  {
  }

  lemma RemovedConserves(s: State, r: Removal)
    requires Conserved(s) && Removable(s.books, r)
    ensures Conserved(Removed(s, r))
  {
    var t := Removed(s, r);
    TallyRemove(s.books.waiting.Of(r.cls), r.index);
    KnownRemove(s.books.waiting.Of(r.cls), r.index, s.books.ledger);
    assert s.books.waiting.Of(r.cls)[r.index].permit in s.books.ledger;
    ReleaseOne(s.books.ledger, r.job.permit);
    hide Held, Known, RemoveAt, Release1;
    KnownSame(s.books.ledger, t.books.ledger);
    assert forall k :: PermitsOut(t, k) == PermitsOut(s, k) - (if r.job.permit == k then 1 else 0);
  }

  lemma PushConserves(s: State)
    requires Conserved(s) && s.lock.Holding?
    ensures Conserved(Pushed(s))
  {
    var jobs, t := s.books.waiting.Of(s.lock.key.cls), Pushed(s);
    TallyAppend(jobs, Admitted(s));
    KnownAppend(jobs, Admitted(s), s.books.ledger);
    hide Known, Held;
    assert forall k :: PermitsOut(t, k) == PermitsOut(s, k);
  }

  lemma HandOffConserves(s: State, cls: Class)
    requires Conserved(s) && s.books.waiting.Of(cls) != []
    ensures Conserved(HandedOff(s, cls))
  {
    var jobs, t := s.books.waiting.Of(cls), HandedOff(s, cls);
    assert RemoveAt(jobs, 0) == jobs[1..] == t.books.waiting.Of(cls);
    TallyRemove(jobs, 0);
    TallyAppend(s.executing, jobs[0]);
    KnownRemove(jobs, 0, s.books.ledger);
    KnownAppend(s.executing, jobs[0], s.books.ledger);
    hide Held, Known, RemoveAt, NextStreak;
    assert forall k :: PermitsOut(t, k) == PermitsOut(s, k);
  }

  lemma PermitDropConserves(s: State, i: nat)
    requires Conserved(s) && i < |s.executing|
    ensures Conserved(PermitDropped(s, i))
  {
    var t := PermitDropped(s, i);
    TallyRemove(s.executing, i);
    assert forall k :: PermitsOut(t, k) == PermitsOut(s, k) - (if s.executing[i].permit == k then 1 else 0);
  }

  /** One budget and the permit at the lock move together. */
  lemma BudgetMoveConserves(s: State, t: State, key: Key)
    requires Conserved(s) && key in s.books.ledger && t.books.ledger.Keys == s.books.ledger.Keys
    requires t.books.waiting == s.books.waiting && t.executing == s.executing
    requires t.books.ledger[key].outstanding - LockHeld(t.lock, key)
          == s.books.ledger[key].outstanding - LockHeld(s.lock, key)
    requires forall k | k in s.books.ledger && k != key ::
               t.books.ledger[k] == s.books.ledger[k] && LockHeld(t.lock, k) == LockHeld(s.lock, k)
    requires t.lock.Free? || t.lock == s.lock || (t.lock.Holding? && t.lock.key == key)
    ensures Conserved(t)
  {
    KnownSame(s.books.ledger, t.books.ledger);
    hide Held, Known, LockHeld;
    assert forall k :: PermitsOut(t, k) - LockHeld(t.lock, k) == PermitsOut(s, k) - LockHeld(s.lock, k);
  }

  lemma LedgerStepConserves(s: State, step: Step)
    requires Conserved(s) && Enabled(s, step) && (step.Acquire? || step.Full? || step.Resize?)
    ensures Conserved(Apply(s, step))
  {
    hide Known, PermitsOut;
    BudgetMoveConserves(s, Apply(s, step), if step.Resize? then step.key else s.lock.key);
  }

  lemma MovesConserve(s: State, step: Step)
    requires Conserved(s) && Enabled(s, step) && MovesPermits(step)
    ensures Conserved(Apply(s, step))
  {
    hide Known, PermitsOut, Remove, RemoveAt, NextStreak, Execute, RefusedEarly, Stays, MayDrop;
    var t := Apply(s, step);
    match step
    case Drop(r) => RemovedConserves(s, r);
    case RejectOne(cls) => RemovedConserves(s, Removal(cls, 0, s.books.waiting.Of(cls)[0], Refused));
    case Push => PushConserves(s);
    case HandOff => HandOffConserves(s, s.Select().value);
    case Complete(i, _) =>
      PermitDropConserves(s, i);
      ConservedFrame(PermitDropped(s, i), t);
    case Lose(i) =>
      PermitDropConserves(s, i);
      ConservedFrame(PermitDropped(s, i), t);
    case _ => LedgerStepConserves(s, step);
  }

  /** Every permit is counted from admission to its one release, whatever interleaves. */
  lemma ConservedStep(s: State, step: Step)
    requires Conserved(s) && Enabled(s, step)
    ensures Conserved(Apply(s, step))
  {
    if MovesPermits(step) {
      MovesConserve(s, step);
    } else {
      QuietStep(s, step);
      hide Apply, Enabled, PermitsOut;
      ConservedFrame(s, Apply(s, step));
    }
  }
}
