/** The guarantees of the gateway over whole runs. */
module GatewayTheorems {
  import opened Wrappers
  import opened Budgets
  import opened Responses
  import opened Queueing
  import opened Gateway
  import opened GatewayEffects
  import opened GatewayCallers
  import opened GatewayInvariants
  import opened GatewayOrder
  import opened GatewayProgress

  ghost predicate Inv(s: State) {
    Shape(s) && Conserved(s) && OnePlace(s) && OneFate(s) && Honest(s) && Ordered(s) && Awake(s)
  }

  /** Some run of a gateway with at least one execution slot ends in `s`. */
  ghost predicate Reachable(s: State) {
    exists cfg: Settings, maxima, steps ::
      cfg.limit >= 1 && IsRun(Init(cfg, maxima), steps) && After(Init(cfg, maxima), steps) == s
  }

  lemma InitInv(cfg: Settings, maxima: map<Key, nat>)
    requires cfg.limit >= 1
    ensures Inv(Init(cfg, maxima))
  {
  }

  lemma StepInv(s: State, step: Step)
    requires Inv(s) && Enabled(s, step)
    ensures Inv(Apply(s, step))
  {
    hide Apply, Enabled, Shape, Conserved, OnePlace, OneFate, Honest, Ordered, Awake;
    ShapeStep(s, step);
    ConservedStep(s, step);
    CallersStep(s, step);
    HonestStep(s, step);
    OrderedStep(s, step);
    AwakeStep(s, step);
  }

  lemma {:induction false} RunInv(s: State, steps: seq<Step>)
    requires Inv(s) && IsRun(s, steps)
    ensures Inv(After(s, steps))
    decreases steps
  {
    if steps != [] {
      StepInv(s, steps[0]);
      hide Inv, Apply, Enabled;
      RunInv(Apply(s, steps[0]), steps[1..]);
    }
  }

  lemma OneStep(s: State, step: Step)
    requires Enabled(s, step)
    ensures IsRun(s, [step]) && After(s, [step]) == Apply(s, step)
  {
    assert [step][1..] == [];
  }

  lemma {:induction false} RunConcat(s: State, steps: seq<Step>, more: seq<Step>)
    requires IsRun(s, steps) && IsRun(After(s, steps), more)
    ensures IsRun(s, steps + more) && After(s, steps + more) == After(After(s, steps), more)
    decreases steps
  {
    hide Apply, Enabled;
    if steps == [] {
      assert steps + more == more;
    } else {
      assert (steps + more)[1..] == steps[1..] + more;
      RunConcat(Apply(s, steps[0]), steps[1..], more);
    }
  }

  lemma ReachableInv(s: State)
    requires Reachable(s)
    ensures Inv(s)
  {
    var cfg: Settings, maxima, steps :|
      cfg.limit >= 1 && IsRun(Init(cfg, maxima), steps) && After(Init(cfg, maxima), steps) == s;
    InitInv(cfg, maxima);
    hide Inv;
    RunInv(Init(cfg, maxima), steps);
  }

  lemma ReachableOn(s: State, steps: seq<Step>)
    requires Reachable(s) && IsRun(s, steps)
    ensures Reachable(After(s, steps))
  {
    var cfg: Settings, maxima, before :|
      cfg.limit >= 1 && IsRun(Init(cfg, maxima), before) && After(Init(cfg, maxima), before) == s;
    RunConcat(Init(cfg, maxima), before, steps);
  }

  // ---------- Permits ----------

  /** In every reachable state and for every budget, `outstanding` is exactly the queued jobs, the executing jobs
      and the caller about to push that hold it. */
  lemma PermitConservation(s: State, key: Key)
    requires Reachable(s) && key in s.books.ledger
    ensures s.books.ledger[key].outstanding == PermitsOut(s, key) >= 0
  {
    ReachableInv(s);
  }

  /** The budget a step releases a permit of, if any. */
  function ReleasedBy(s: State, step: Step): Option<Key> {
    match step
    case Drop(r) => Some(r.job.permit)
    case RejectOne(cls) => if s.books.waiting.Of(cls) != [] then Some(s.books.waiting.Of(cls)[0].permit) else None
    case Full => if s.lock.Holding? then Some(s.lock.key) else None
    case Complete(i, _) => if i < |s.executing| then Some(s.executing[i].permit) else None
    case Lose(i) => if i < |s.executing| then Some(s.executing[i].permit) else None
    case _ => None
  }

  lemma InvConserved(s: State)
    requires Inv(s)
    ensures Conserved(s)
  {
  }

  /** No release underflows: every step that drops a permit finds it counted. */
  lemma NoUnderflow(s: State, step: Step)
    requires Reachable(s) && Enabled(s, step) && ReleasedBy(s, step).Some?
    ensures var key := ReleasedBy(s, step).value; key in s.books.ledger && s.books.ledger[key].outstanding > 0
  {
    ReachableInv(s);
    InvConserved(s);
    hide Inv, Reachable, Enabled, Conserved, ReleasedBy;
    CountedBeforeRelease(s, step);
  }

  lemma CountedBeforeRelease(s: State, step: Step)
    requires Conserved(s) && Enabled(s, step) && ReleasedBy(s, step).Some?
    ensures var key := ReleasedBy(s, step).value; key in s.books.ledger && s.books.ledger[key].outstanding > 0
  {
    hide Held, RemoveAt, Stays, MayDrop;
    match step
    case Drop(r) => HeldPositive(s.books.waiting.Of(r.cls), r.index);
    case RejectOne(cls) => HeldPositive(s.books.waiting.Of(cls), 0);
    case Complete(i, _) => HeldPositive(s.executing, i);
    case Lose(i) => HeldPositive(s.executing, i);
    case Full =>
  }

  // ---------- Fates and answers ----------

  /** Every accepted job is either still queued or has met exactly one fate: hand-off, expiry, closure, or silent
      discard after its caller left; and no other caller has met any. */
  lemma UniqueFate(s: State, c: nat)
    requires Reachable(s)
    ensures Everywhere(s.books.waiting, c) + Handed(s.history.handoffs, c)
            + s.history.expired[c] + s.history.refused[c] + s.history.gone[c]
            == if c in s.history.accepted then 1 else 0
  {
    ReachableInv(s);
    assert Fates(s, c) == if c in s.history.accepted then 1 else 0;
  }

  /** At most one answer is given to a caller, and none to one silently discarded or still on its way. */
  lemma OneAnswer(s: State, i: nat, j: nat)
    requires Reachable(s) && i < j < |s.books.answers|
    ensures s.books.answers[i].caller != s.books.answers[j].caller
  {
    ReachableInv(s);
    var c := s.books.answers[i].caller;
    assert Places(s, c) <= 1;
    hide Inv;
    if s.books.answers[j].caller == c {
      ToldTwice(s.books.answers, i, j);
    }
  }

  lemma ToldTwice(answers: seq<Answer>, i: nat, j: nat)
    requires i < j < |answers| && answers[i].caller == answers[j].caller
    ensures Told(answers, answers[i].caller) >= 2
  {
    ToldRemove(answers, j);
    ToldPositive(RemoveAt(answers, j), i);
  }

  lemma AnswersFit(s: State, a: Answer)
    requires Reachable(s) && a in s.books.answers
    ensures Fits(s.history.handoffs, a)
  {
    ReachableInv(s);
    var i :| 0 <= i < |s.books.answers| && s.books.answers[i] == a;
  }

  lemma {:induction false} AnswersStay(s: State, steps: seq<Step>, a: Answer)
    requires IsRun(s, steps) && a in s.books.answers
    ensures a in After(s, steps).books.answers
    decreases steps
  {
    if steps != [] {
      ConfigStays(s, steps[0]);
      hide Apply, Enabled;
      AnswersStay(Apply(s, steps[0]), steps[1..], a);
    }
  }

  /** An answer that any client takes for not started is never a lie: its caller has not been handed to an
      executor, and is not in any later state either. */
  lemma NotStartedIsForGood(s: State, steps: seq<Step>, a: Answer)
    requires Reachable(s) && IsRun(s, steps) && a in s.books.answers && NotStarted(a.response)
    ensures Handed(After(s, steps).history.handoffs, a.caller) == 0
  {
    AnswersStay(s, steps, a);
    ReachableOn(s, steps);
    AnswersFit(After(s, steps), a);
  }

  /** A caller is handed off at most once, and a handed-off job is never told that it expired in the queue or
      that the gateway closed. */
  lemma HandedOffIsNeverNotStarted(s: State, a: Answer)
    requires Reachable(s) && a in s.books.answers && Handed(s.history.handoffs, a.caller) > 0
    ensures AfterHandOff(a.response) && !NotStarted(a.response)
    ensures Handed(s.history.handoffs, a.caller) == 1
  {
    AnswersFit(s, a);
    UniqueFate(s, a.caller);
  }

  // ---------- Wake-ups, closing and drop ----------

  /** When the scheduler sleeps with no notification pending or owed, either nothing is queued or every slot is
      taken, by executing jobs alone once no finished task awaits joining; and its timer is armed no later than
      any queued deadline. */
  lemma WorkConservation(s: State)
    requires Reachable(s) && Asleep(s)
    ensures s.Queued() == 0 || s.Running() == s.cfg.limit
    ensures s.Queued() > 0 && s.finished == 0 ==> |s.executing| + |s.settling| == s.cfg.limit
    ensures TimerCovers(s.scheduler.timer, s.books.waiting)
  {
    ReachableInv(s);
  }

  /** A scheduler that sleeps through a close still has a task to join or a deadline to wake for. */
  lemma ClosingNeverStalls(s: State)
    requires Reachable(s) && Asleep(s) && s.closing && s.owner.Alive?
    ensures s.Running() > 0 || (s.scheduler.timer.Some? && s.Queued() > 0)
  {
    ReachableInv(s);
    assert Awake(s);
  }

  /** The gateway has drained: the scheduler has returned after a close, or drop has rejected what was pending. */
  predicate Finished(s: State) {
    s.scheduler.Returned? || s.owner.Rejected?
  }

  lemma FinishedStep(s: State, step: Step)
    requires Shape(s) && Enabled(s, step)
    ensures s.owner.Rejected? ==> Apply(s, step).owner.Rejected?
    ensures s.scheduler.Returned? ==> Apply(s, step).scheduler.Returned?
    ensures Finished(s) ==> Apply(s, step).history.accepted == s.history.accepted
  {
    Kinds(step);
    if ByTask(step) {
      TaskFrame(s, step);
      hide Apply, Enabled;
    } else if Refuses(step) {
      RefusalFrame(s, step);
      hide Apply, Enabled;
    } else if Enters(step) {
      EntryFrame(s, step);
      hide Apply, Enabled;
    } else if ByScheduler(step) {
      SchedulerFrame(s, step);
      ReturnedRests(s, step);
      hide Apply, Enabled;
    } else if Around(step) {
      AroundFrame(s, step);
      OwnerRests(s, step);
      hide Apply, Enabled;
    } else {
      QueuesRest(s, step);
      hide Apply, Enabled;
    }
  }

  lemma OwnerRests(s: State, step: Step)
    requires Enabled(s, step) && Around(step)
    ensures s.owner.Rejected? ==> Apply(s, step).owner.Rejected?
    ensures s.scheduler.Returned? ==> Apply(s, step).scheduler.Returned?
  {
  }

  lemma QueuesRest(s: State, step: Step)
    requires Shape(s) && Enabled(s, step) && MovesJob(step)
    ensures Apply(s, step).owner == s.owner && Apply(s, step).scheduler == s.scheduler
    ensures Finished(s) ==> Apply(s, step).history.accepted == s.history.accepted
  {
    hide Remove, RemoveAt, NextStreak, Stays, MayDrop, Chosen;
    match step
    case Push =>
    case Drop(_) =>
    case RejectOne(_) =>
    case HandOff =>
  }

  lemma ReturnedRests(s: State, step: Step)
    requires Shape(s) && Enabled(s, step) && ByScheduler(step)
    ensures !s.scheduler.Returned?
  {
    hide Apply;
  }

  lemma {:induction false} FinishedForGood(s: State, steps: seq<Step>)
    requires Inv(s) && IsRun(s, steps) && Finished(s)
    ensures Finished(After(s, steps))
    ensures s.scheduler.Returned? ==> After(s, steps).scheduler.Returned?
    ensures After(s, steps).history.accepted == s.history.accepted
    decreases steps
  {
    if steps != [] {
      FinishedStep(s, steps[0]);
      StepInv(s, steps[0]);
      hide Inv, Apply, Enabled, Shape;
      FinishedForGood(Apply(s, steps[0]), steps[1..]);
    }
  }

  /** Once the scheduler has returned, or drop has rejected what was pending, the queues are empty and no later
      submission through a retained router is accepted, although drop stores `closing` without the lock. */
  lemma NothingAfterTheEnd(s: State, steps: seq<Step>)
    requires Reachable(s) && Finished(s) && IsRun(s, steps)
    ensures var t := After(s, steps); t.Queued() == 0 && Sealed(t) && t.history.accepted == s.history.accepted
  {
    ReachableInv(s);
    FinishedForGood(s, steps);
    RunInv(s, steps);
    hide IsRun, After;
  }

  /** When the scheduler has returned, every budget is zero, and stays so. */
  lemma ReturnedReleasesEverything(s: State, steps: seq<Step>, key: Key)
    requires Reachable(s) && s.scheduler.Returned? && IsRun(s, steps)
    requires key in After(s, steps).books.ledger
    ensures After(s, steps).books.ledger[key].outstanding == 0
  {
    ReachableInv(s);
    FinishedForGood(s, steps);
    RunInv(s, steps);
    ReachableOn(s, steps);
    PermitConservation(After(s, steps), key);
    hide IsRun, After;
  }

  // ---------- Order ----------

  /** In FIFO mode the admission numbers handed off over any run strictly increase across both classes, in
      weighted mode within each class. */
  lemma HandOffsInAdmissionOrder(s: State, i: nat, j: nat)
    requires Reachable(s) && i < j < |s.history.handoffs|
    requires s.cfg.mode.Fifo? || s.history.handoffs[i].cls == s.history.handoffs[j].cls
    ensures s.history.handoffs[i].order < s.history.handoffs[j].order
  {
    ReachableInv(s);
    assert Compared(s.cfg.mode, s.history.handoffs[i].cls, s.history.handoffs[j].cls);
    assert HandoffsOrdered(s.cfg.mode, s.history.handoffs);
  }

  /** In weighted mode, over any run from a reachable state, an agent job at index k sees at most 3 * (k + 1)
      interactive hand-offs before it leaves its queue, and an interactive job at index j at most 1 + j / 3
      agent hand-offs. The streak never exceeds 3. */
  lemma BoundedBypass(s: State, steps: seq<Step>, cls: Class, c: nat, index: nat)
    requires Reachable(s) && s.cfg.mode.Weighted? && IsRun(s, steps) && WaitsAt(s, cls, c, index)
    ensures cls.Agent? ==> Bypasses(s, steps, cls, c) <= 3 * (index + 1)
    ensures cls.Interactive? ==> Bypasses(s, steps, cls, c) <= 1 + index / 3
    ensures s.streak <= 3
  {
    ReachableInv(s);
    Bypassed(s, steps, cls, c, index);
  }
}
