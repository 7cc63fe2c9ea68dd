/** What other tasks may do while the queue lock is held, and that removals from the queues may be seen as one block. */
module GatewayInterference {
  import opened Budgets
  import opened Responses
  import opened Queueing
  import opened Gateway
  import opened GatewayEffects
  import opened GatewayTheorems

  // ---------- Runs between two states ----------

  /** The steps lead from one state to the other. */
  ghost predicate Reaches(s: State, steps: seq<Step>, t: State) {
    IsRun(s, steps) && After(s, steps) == t
  }

  lemma ReachesNone(s: State)
    ensures Reaches(s, [], s)
  {
  }

  lemma ReachesStep(s: State, step: Step)
    requires Enabled(s, step)
    ensures Reaches(s, [step], Apply(s, step))
  {
    OneStep(s, step);
  }

  lemma ReachesOn(s: State, steps: seq<Step>, t: State, more: seq<Step>, u: State)
    requires Reaches(s, steps, t) && Reaches(t, more, u)
    ensures Reaches(s, steps + more, u)
  {
    RunConcat(s, steps, more);
  }

  lemma ReachesInv(s: State, steps: seq<Step>, t: State)
    requires Inv(s) && Reaches(s, steps, t)
    ensures Inv(t)
  {
    RunInv(s, steps);
  }

  // ---------- Other tasks ----------

  /** The steps of tasks that do not take the queue lock. */
  predicate Foreign(step: Step) {
    || step.Tick? || step.Depart? || step.RefuseEarly? || step.Notify? || step.Resize? || step.Join? || step.Park?
    || step.WakeNotified? || step.WakeJoin? || step.WakeTimer? || step.Complete? || step.Reply? || step.Lose?
    || step.Flag? || step.SendAbort? || step.Abort?
  }

  /** What they leave to the holder of the lock: the queues, the numbers, and a scheduler in its pass. */
  predicate Undisturbed(s: State, t: State) {
    && t.lock == s.lock && t.books.waiting == s.books.waiting && t.nextOrder == s.nextOrder && t.streak == s.streak
    && t.cfg == s.cfg && t.books.ledger.Keys == s.books.ledger.Keys && (s.closing ==> t.closing)
    && (s.scheduler.Pass? ==> t.scheduler == s.scheduler && t.Running() == s.Running())
  }

  lemma ForeignUndisturbed(s: State, step: Step)
    requires Enabled(s, step) && Foreign(step)
    ensures Undisturbed(s, Apply(s, step))
  {
    hide Apply, Enabled;
    if ByTask(step) {
      TaskFrame(s, step);
    } else if step.RefuseEarly? {
      RefusalFrame(s, step);
    } else if step.Resize? {
      EntryFrame(s, step);
    } else if ByScheduler(step) {
      SchedulerFrame(s, step);
      WaitsOutside(s, step);
    } else {
      AroundFrame(s, step);
      WaitsOutside(s, step);
    }
  }

  /** A scheduler in its pass holds the lock: no other step moves it. */
  lemma WaitsOutside(s: State, step: Step)
    requires Enabled(s, step) && Foreign(step) && (ByScheduler(step) || Around(step))
    ensures s.scheduler.Pass? ==> !ByScheduler(step) && Apply(s, step).scheduler.Pass?
  {
    hide Apply;
    if Around(step) && s.scheduler.Pass? {
      PassStays(s, step);
    }
  }

  lemma PassStays(s: State, step: Step)
    requires Enabled(s, step) && Around(step) && s.scheduler.Pass?
    ensures Apply(s, step).scheduler == s.scheduler
  {
  }

  lemma UndisturbedOn(s: State, t: State, u: State)
    requires Undisturbed(s, t) && Undisturbed(t, u)
    ensures Undisturbed(s, u)
  {
  }

  /** What the holder of the lock did itself, besides removing jobs. */
  function Acts(steps: seq<Step>): seq<Step> {
    if steps == [] then []
    else (if Foreign(steps[0]) || TakesOut(steps[0]) then [] else [steps[0]]) + Acts(steps[1..])
  }

  lemma {:induction false} ActsConcat(steps: seq<Step>, more: seq<Step>)
    ensures Acts(steps + more) == Acts(steps) + Acts(more)
  {
    if steps == [] {
      assert steps + more == more;
    } else {
      assert (steps + more)[1..] == steps[1..] + more;
      ActsConcat(steps[1..], more);
    }
  }

  // ---------- Removals as one block ----------

  /** Looking at the clock and at departures, and removing jobs: what a maintenance scan or a drain does. */
  predicate InBlock(step: Step) {
    step.Tick? || step.Depart? || TakesOut(step)
  }

  /** The steps of other tasks that can wait until such a block is over. */
  predicate CanWait(step: Step) {
    Foreign(step) && !step.Tick? && !step.Depart?
  }

  /** The two states differ at most in the order in which answers were sent to different callers. */
  predicate Alike(s: State, t: State) {
    && t == s.(books := s.books.(answers := t.books.answers))
    && multiset(s.books.answers) == multiset(t.books.answers)
  }

  lemma ReleasesCommute(ledger: Ledger, a: Key, b: Key)
    ensures Release1(Release1(ledger, a), b) == Release1(Release1(ledger, b), a)
  {
  }

  lemma ResizeCommutes(ledger: Ledger, key: Key, maximum: nat, released: Key)
    requires key in ledger
    ensures Release1(ledger[key := Resized(ledger[key], maximum)], released) ==
            Release1(ledger, released)[key := Resized(Release1(ledger, released)[key], maximum)]
  {
  }

  lemma AnswersCommute(answers: seq<Answer>, a: seq<Answer>, b: seq<Answer>)
    ensures multiset(answers + a + b) == multiset(answers + b + a)
  {
  }

  // Removing one job and a step of another task, in either order.

  lemma SwapRefusal(s: State, f: Step, r: Removal)
    requires f.RefuseEarly? && Enabled(s, f) && Removable(s.books, r)
    ensures Enabled(Removed(s, r), f) && Removable(Apply(s, f).books, r)
    ensures Alike(Removed(Apply(s, f), r), Apply(Removed(s, r), f))
  {
    AnswersCommute(s.books.answers, [Answer(f.caller, f.response)], Notice(r));
    hide RefusedEarly, RemoveAt, Release1;
  }

  lemma SwapResize(s: State, f: Step, r: Removal)
    requires f.Resize? && Enabled(s, f) && Removable(s.books, r)
    ensures Enabled(Removed(s, r), f) && Removable(Apply(s, f).books, r)
    ensures Alike(Removed(Apply(s, f), r), Apply(Removed(s, r), f))
  {
    ResizeCommutes(s.books.ledger, f.key, f.maximum, r.job.permit);
    assert f.key in Release1(s.books.ledger, r.job.permit);
    hide RemoveAt, Release1, Resized;
  }

  lemma SwapComplete(s: State, f: Step, r: Removal)
    requires f.Complete? && Enabled(s, f) && Removable(s.books, r)
    ensures Enabled(Removed(s, r), f) && Removable(Apply(s, f).books, r)
    ensures Alike(Removed(Apply(s, f), r), Apply(Removed(s, r), f))
  {
    ReleasesCommute(s.books.ledger, s.executing[f.task].permit, r.job.permit);
    hide RemoveAt, Release1, Execute;
  }

  lemma SwapReply(s: State, f: Step, r: Removal)
    requires f.Reply? && Enabled(s, f) && Removable(s.books, r)
    ensures Enabled(Removed(s, r), f) && Removable(Apply(s, f).books, r)
    ensures Alike(Removed(Apply(s, f), r), Apply(Removed(s, r), f))
  {
    AnswersCommute(s.books.answers, [Answer(s.settling[f.task].caller, s.settling[f.task].response)], Notice(r));
    hide RemoveAt, Release1;
  }

  lemma SwapLoss(s: State, f: Step, r: Removal)
    requires f.Lose? && Enabled(s, f) && Removable(s.books, r)
    ensures Enabled(Removed(s, r), f) && Removable(Apply(s, f).books, r)
    ensures Alike(Removed(Apply(s, f), r), Apply(Removed(s, r), f))
  {
    ReleasesCommute(s.books.ledger, s.executing[f.task].permit, r.job.permit);
    AnswersCommute(s.books.answers, [Answer(s.executing[f.task].reply, LostReply())], Notice(r));
    hide RemoveAt, Release1, LostReply;
  }

  lemma SwapWake(s: State, f: Step, r: Removal)
    requires f.WakeNotified? || f.WakeJoin? || f.WakeTimer?
    requires Enabled(s, f) && Removable(s.books, r)
    ensures Enabled(Removed(s, r), f) && Removable(Apply(s, f).books, r)
    ensures Alike(Removed(Apply(s, f), r), Apply(Removed(s, r), f))
  {
    hide RemoveAt, Release1, Remove;
  }

  lemma SwapScheduler(s: State, f: Step, r: Removal)
    requires f.Join? || f.Park? || f.Abort?
    requires Enabled(s, f) && Removable(s.books, r)
    ensures Enabled(Removed(s, r), f) && Removable(Apply(s, f).books, r)
    ensures Alike(Removed(Apply(s, f), r), Apply(Removed(s, r), f))
  {
    hide RemoveAt, Release1, Remove;
  }

  lemma SwapNotice(s: State, f: Step, r: Removal)
    requires f.Notify?
    requires Enabled(s, f) && Removable(s.books, r)
    ensures Enabled(Removed(s, r), f) && Removable(Apply(s, f).books, r)
    ensures Alike(Removed(Apply(s, f), r), Apply(Removed(s, r), f))
  {
    hide RemoveAt, Release1, Remove;
  }

  lemma SwapOwner(s: State, f: Step, r: Removal)
    requires f.Flag? || f.SendAbort?
    requires Enabled(s, f) && Removable(s.books, r)
    ensures Enabled(Removed(s, r), f) && Removable(Apply(s, f).books, r)
    ensures Alike(Removed(Apply(s, f), r), Apply(Removed(s, r), f))
  {
    hide RemoveAt, Release1, Remove;
  }

  lemma SwapRemoval(s: State, f: Step, r: Removal)
    requires CanWait(f) && Enabled(s, f) && Removable(s.books, r)
    ensures Enabled(Removed(s, r), f) && Removable(Apply(s, f).books, r)
    ensures Alike(Removed(Apply(s, f), r), Apply(Removed(s, r), f))
  {
    hide Enabled, Apply, Removed, Removable, Alike;
    match f
    case RefuseEarly(_, _) => SwapRefusal(s, f, r);
    case Resize(_, _) => SwapResize(s, f, r);
    case Complete(_, _) => SwapComplete(s, f, r);
    case Reply(_) => SwapReply(s, f, r);
    case Lose(_) => SwapLoss(s, f, r);
    case Notify(_) => SwapNotice(s, f, r);
    case Flag => SwapOwner(s, f, r);
    case SendAbort => SwapOwner(s, f, r);
    case WakeNotified => SwapWake(s, f, r);
    case WakeJoin => SwapWake(s, f, r);
    case WakeTimer => SwapWake(s, f, r);
    case _ => SwapScheduler(s, f, r);
  }

  lemma SwapCallerReading(s: State, f: Step, b: Step)
    requires (f.RefuseEarly? || f.Resize?) && Enabled(s, f) && (b.Tick? || b.Depart?) && Enabled(s, b)
    ensures Enabled(Apply(s, b), f) && Enabled(Apply(s, f), b)
    ensures Apply(Apply(s, f), b) == Apply(Apply(s, b), f)
  {
    hide RefusedEarly, Resized;
  }

  lemma SwapTaskReading(s: State, f: Step, b: Step)
    requires ByTask(f) && Enabled(s, f) && (b.Tick? || b.Depart?) && Enabled(s, b)
    ensures Enabled(Apply(s, b), f) && Enabled(Apply(s, f), b)
    ensures Apply(Apply(s, f), b) == Apply(Apply(s, b), f)
  {
    hide RemoveAt, Release1, Execute, LostReply;
    match f
    case Complete(_, _) =>
    case Reply(_) =>
    case Lose(_) =>
  }

  lemma SwapWakeReading(s: State, f: Step, b: Step)
    requires f.WakeNotified? || f.WakeJoin? || f.WakeTimer?
    requires Enabled(s, f) && (b.Tick? || b.Depart?) && Enabled(s, b)
    ensures Enabled(Apply(s, b), f) && Enabled(Apply(s, f), b)
    ensures Apply(Apply(s, f), b) == Apply(Apply(s, b), f)
  {
  }

  lemma SwapWaitReading(s: State, f: Step, b: Step)
    requires f.Join? || f.Park? || f.Abort?
    requires Enabled(s, f) && (b.Tick? || b.Depart?) && Enabled(s, b)
    ensures Enabled(Apply(s, b), f) && Enabled(Apply(s, f), b)
    ensures Apply(Apply(s, f), b) == Apply(Apply(s, b), f)
  {
  }

  lemma SwapNoticeReading(s: State, f: Step, b: Step)
    requires f.Notify?
    requires Enabled(s, f) && (b.Tick? || b.Depart?) && Enabled(s, b)
    ensures Enabled(Apply(s, b), f) && Enabled(Apply(s, f), b)
    ensures Apply(Apply(s, f), b) == Apply(Apply(s, b), f)
  {
  }

  lemma SwapOwnerReading(s: State, f: Step, b: Step)
    requires f.Flag? || f.SendAbort?
    requires Enabled(s, f) && (b.Tick? || b.Depart?) && Enabled(s, b)
    ensures Enabled(Apply(s, b), f) && Enabled(Apply(s, f), b)
    ensures Apply(Apply(s, f), b) == Apply(Apply(s, b), f)
  {
  }

  /** A step of another task that came before a reading of the clock or of departures may come after it. */
  lemma SwapReading(s: State, f: Step, b: Step)
    requires CanWait(f) && Enabled(s, f) && (b.Tick? || b.Depart?) && Enabled(s, b)
    ensures Enabled(Apply(s, b), f) && Enabled(Apply(s, f), b)
    ensures Apply(Apply(s, f), b) == Apply(Apply(s, b), f)
  {
    hide Enabled, Apply;
    if ByTask(f) {
      SwapTaskReading(s, f, b);
    } else if f.RefuseEarly? || f.Resize? {
      SwapCallerReading(s, f, b);
    } else if f.WakeNotified? || f.WakeJoin? || f.WakeTimer? {
      SwapWakeReading(s, f, b);
    } else if ByScheduler(f) {
      SwapWaitReading(s, f, b);
    } else if f.Notify? {
      SwapNoticeReading(s, f, b);
    } else {
      SwapOwnerReading(s, f, b);
    }
  }

  /** What a step of another task changes that a block could see. */
  lemma WaitKeepsBlock(s: State, f: Step)
    requires Enabled(s, f) && CanWait(f)
    ensures var t := Apply(s, f);
            && t.books.waiting == s.books.waiting && t.departed == s.departed && t.now == s.now && t.lock == s.lock
  {
    hide Apply, Enabled;
    if ByTask(f) {
      TaskFrame(s, f);
    } else if f.RefuseEarly? {
      RefusalFrame(s, f);
    } else if f.Resize? {
      EntryFrame(s, f);
    } else if ByScheduler(f) {
      SchedulerFrame(s, f);
    } else {
      AroundFrame(s, f);
      TimeStands(s, f);
    }
  }

  lemma TimeStands(s: State, f: Step)
    requires Enabled(s, f) && (f.Notify? || f.Flag? || f.SendAbort?)
    ensures Apply(s, f).now == s.now && Apply(s, f).departed == s.departed
  {
  }

  /** A step of the block depends on no more than that. */
  lemma BlockDependsOn(s: State, t: State, b: Step)
    requires InBlock(b) && Enabled(t, b)
    requires t.books.waiting == s.books.waiting && t.departed == s.departed && t.now == s.now && t.lock == s.lock
    ensures Enabled(s, b)
  {
    match b
    case Tick(_) =>
    case Depart(_) =>
    case Drop(_) =>
    case RejectOne(_) =>
  }

  lemma BlockFirst(s: State, f: Step, b: Step)
    requires Enabled(s, f) && CanWait(f) && InBlock(b) && Enabled(Apply(s, f), b)
    ensures Enabled(s, b)
  {
    hide Apply, Enabled;
    WaitKeepsBlock(s, f);
    BlockDependsOn(s, Apply(s, f), b);
  }

  lemma SwapRemoving(s: State, f: Step, b: Step)
    requires CanWait(f) && TakesOut(b) && Enabled(s, f) && Enabled(Apply(s, f), b)
    ensures Enabled(s, b) && Enabled(Apply(s, b), f)
    ensures Alike(Apply(Apply(s, f), b), Apply(Apply(s, b), f))
  {
    hide Removed, Alike, Enabled, Apply, Removable;
    BlockFirst(s, f, b);
    WaitKeepsBlock(s, f);
    RemovalStep(s, b);
    RemovalStep(Apply(s, f), b);
    SwapRemoval(s, f, RemovalOf(s, b));
  }

  lemma AlikeSame(s: State)
    ensures Alike(s, s)
  {
  }

  /** Any step of another task can wait until after a step of the block. */
  lemma Swap(s: State, f: Step, b: Step)
    requires CanWait(f) && InBlock(b) && Enabled(s, f) && Enabled(Apply(s, f), b)
    ensures Enabled(s, b) && Enabled(Apply(s, b), f)
    ensures Alike(Apply(Apply(s, f), b), Apply(Apply(s, b), f))
  {
    hide Alike, Enabled, Apply;
    if TakesOut(b) {
      SwapRemoving(s, f, b);
    } else {
      BlockFirst(s, f, b);
      SwapReading(s, f, b);
      AlikeSame(Apply(Apply(s, f), b));
    }
  }

  // ---------- The reordering ----------

  lemma AlikeOn(s: State, t: State, u: State)
    requires Alike(s, t) && Alike(t, u)
    ensures Alike(s, u)
  {
  }

  lemma AlikeRemoved(s: State, t: State, r: Removal)
    requires Alike(s, t) && Removable(s.books, r)
    ensures Removable(t.books, r) && Alike(Removed(s, r), Removed(t, r))
  {
    hide RemoveAt, Release1;
  }

  lemma AlikeRemoval(s: State, t: State, step: Step)
    requires Alike(s, t) && Enabled(s, step) && TakesOut(step)
    ensures Enabled(t, step) && Alike(Apply(s, step), Apply(t, step))
  {
    hide Removed;
    RemovalStep(s, step);
    AlikeRemoved(s, t, RemovalOf(s, step));
  }

  lemma AlikeTask(s: State, t: State, step: Step)
    requires Alike(s, t) && Enabled(s, step) && ByTask(step)
    ensures Enabled(t, step) && Alike(Apply(s, step), Apply(t, step))
  {
    hide RemoveAt, Release1, Execute, LostReply;
    match step
    case Complete(_, _) =>
    case Reply(_) =>
    case Lose(_) =>
  }

  lemma AlikeScheduler(s: State, t: State, step: Step)
    requires Alike(s, t) && Enabled(s, step)
    requires step.Join? || step.Park? || step.WakeNotified? || step.WakeJoin? || step.WakeTimer? || step.Abort?
    ensures Enabled(t, step) && Alike(Apply(s, step), Apply(t, step))
  {
  }

  lemma AlikeAround(s: State, t: State, step: Step)
    requires Alike(s, t) && Enabled(s, step)
    requires step.Tick? || step.Depart? || step.Notify? || step.Flag? || step.SendAbort?
    ensures Enabled(t, step) && Alike(Apply(s, step), Apply(t, step))
  {
  }

  lemma AlikeCaller(s: State, t: State, step: Step)
    requires Alike(s, t) && Enabled(s, step) && (step.RefuseEarly? || step.Resize?)
    ensures Enabled(t, step) && Alike(Apply(s, step), Apply(t, step))
  {
    hide RefusedEarly, Resized;
  }

  /** No step reads the answers, so alike states stay alike. */
  lemma AlikeStep(s: State, t: State, step: Step)
    requires Alike(s, t) && Enabled(s, step) && (CanWait(step) || InBlock(step))
    ensures Enabled(t, step) && Alike(Apply(s, step), Apply(t, step))
  {
    if ByTask(step) {
      AlikeTask(s, t, step);
    } else if TakesOut(step) {
      AlikeRemoval(s, t, step);
    } else if ByScheduler(step) {
      AlikeScheduler(s, t, step);
    } else if step.RefuseEarly? || step.Resize? {
      AlikeCaller(s, t, step);
    } else {
      AlikeAround(s, t, step);
    }
    hide Apply, Enabled, Alike;
  }

  predicate AllWait(steps: seq<Step>) {
    forall i | 0 <= i < |steps| :: CanWait(steps[i])
  }

  predicate AllInBlock(steps: seq<Step>) {
    forall i | 0 <= i < |steps| :: InBlock(steps[i])
  }

  lemma ReachesHead(s: State, steps: seq<Step>, t: State)
    requires steps != []
    ensures Reaches(s, steps, t) <==> Enabled(s, steps[0]) && Reaches(Apply(s, steps[0]), steps[1..], t)
  {
  }

  lemma {:induction false} AlikeRun(s: State, t: State, steps: seq<Step>, u: State) returns (v: State)
    requires Alike(s, t) && Reaches(s, steps, u)
    requires forall i | 0 <= i < |steps| :: CanWait(steps[i]) || InBlock(steps[i])
    ensures Reaches(t, steps, v) && Alike(u, v)
    decreases |steps|
  {
    if steps == [] {
      v := t;
    } else {
      hide Enabled, Apply, Reaches, Alike;
      ReachesHead(s, steps, u);
      AlikeStep(s, t, steps[0]);
      v := AlikeRun(Apply(s, steps[0]), Apply(t, steps[0]), steps[1..], u);
      ReachesHead(t, steps, v);
    }
  }

  /** One step of another task moves behind the whole block. */
  lemma {:induction false} WaitPast(s: State, f: Step, block: seq<Step>, t: State) returns (v: State)
    requires CanWait(f) && Enabled(s, f) && AllInBlock(block) && Reaches(Apply(s, f), block, t)
    ensures Reaches(s, block, v) && Enabled(v, f) && Alike(t, Apply(v, f))
    decreases |block|
  {
    if block == [] {
      v := s;
    } else {
      hide Enabled, Apply, Reaches, Alike;
      var b, u := block[0], Apply(s, f);
      ReachesHead(u, block, t);
      Swap(s, f, b);
      var w := AlikeRun(Apply(u, b), Apply(Apply(s, b), f), block[1..], t);
      v := WaitPast(Apply(s, b), f, block[1..], w);
      ReachesHead(s, block, v);
      AlikeOn(t, w, Apply(v, f));
    }
  }

  /** A block during which other tasks go on is, up to the order of answers to different callers, a block that runs
      without interruption followed by what the others did. */
  lemma {:induction false} BlockIsAtomic(s: State, steps: seq<Step>, t: State)
    returns (block: seq<Step>, others: seq<Step>, u: State, v: State)
    requires Reaches(s, steps, t) && forall i | 0 <= i < |steps| :: CanWait(steps[i]) || InBlock(steps[i])
    ensures Reaches(s, block, u) && Reaches(u, others, v) && Alike(t, v)
    ensures AllInBlock(block) && AllWait(others) && multiset(block) + multiset(others) == multiset(steps)
    decreases |steps|
  {
    if steps == [] {
      block, others, u, v := [], [], s, s;
    } else {
      hide Enabled, Apply, Reaches, Alike;
      var f, rest := steps[0], steps[1..];
      assert steps == [f] + rest;
      ReachesHead(s, steps, t);
      var later, w, x;
      block, later, w, x := BlockIsAtomic(Apply(s, f), rest, t);
      if InBlock(f) {
        ReachesHead(s, [f] + block, w);
        block, others, u, v := [f] + block, later, w, x;
      } else {
        u := WaitPast(s, f, block, w);
        v := AlikeRun(w, Apply(u, f), later, x);
        others := [f] + later;
        ReachesHead(u, others, v);
        AlikeOn(t, x, v);
      }
    }
  }
}
