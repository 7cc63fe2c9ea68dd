/** A closing gateway can always finish, and so can a dropped one: from every reachable state after a close or a drop
    there is a run to its end that needs no further caller. */
module GatewayDrain {
  import opened Wrappers
  import opened Budgets
  import opened Responses
  import opened Queueing
  import opened Gateway
  import opened GatewayInvariants
  import opened GatewayProgress
  import opened GatewayTheorems

  /** No caller comes in. */
  predicate Enterless(steps: seq<Step>) {
    forall i | 0 <= i < |steps| :: !steps[i].Enter?
  }

  /** No caller comes in, and none that was in pushes a job. */
  predicate Admitless(steps: seq<Step>) {
    Enterless(steps) && forall i | 0 <= i < |steps| :: !steps[i].Push?
  }

  /** The steps lead from one state to the other, and no caller comes in. */
  ghost predicate Settles(s: State, steps: seq<Step>, t: State) {
    IsRun(s, steps) && After(s, steps) == t && Enterless(steps)
  }

  lemma SettlesNot(s: State)
    ensures Settles(s, [], s)
  {
  }

  lemma SettlesStep(s: State, step: Step) returns (steps: seq<Step>)
    requires Enabled(s, step) && !step.Enter?
    ensures Settles(s, steps, Apply(s, step))
  {
    steps := [step];
    OneStep(s, step);
  }

  lemma SettlesOn(s: State, steps: seq<Step>, t: State, more: seq<Step>, u: State) returns (all: seq<Step>)
    requires Settles(s, steps, t) && Settles(t, more, u)
    ensures Settles(s, all, u)
  {
    RunConcat(s, steps, more);
    all := steps + more;
  }

  predicate Closing(s: State) {
    s.closing && s.owner.Alive?
  }

  /** No task is executing or owes an answer: those counted as running only wait to be joined. */
  predicate Idle(s: State) {
    s.executing == [] && s.settling == []
  }

  /** What the steps of other tasks leave to the scheduler. */
  predicate SameGate(s: State, t: State) {
    && t.scheduler == s.scheduler && t.lock == s.lock && t.closing == s.closing && t.owner == s.owner
    && t.Running() == s.Running()
  }

  // ---------- Tasks ----------

  /** Every executing task can end and reply, so that only joins are left. */
  lemma {:induction false} FinishTasks(s: State) returns (steps: seq<Step>, t: State)
    ensures Settles(s, steps, t) && SameGate(s, t) && Idle(t)
    decreases 2 * |s.executing| + |s.settling|
  {
    if s.executing == [] && s.settling == [] {
      steps, t := [], s;
    } else {
      var step := if s.executing != [] then Complete(0, TimedOut) else Reply(0);
      var u := Apply(s, step);
      var first := SettlesStep(s, step);
      assert SameGate(s, u) by {
        hide Execute, Release1, RemoveAt;
      }
      assert |u.executing| == if s.executing != [] then |s.executing| - 1 else 0;
      assert |u.settling| == if s.executing != [] then |s.settling| + 1 else |s.settling| - 1;
      hide Apply, Enabled, Settles, SameGate;
      var rest;
      rest, t := FinishTasks(u);
      steps := SettlesOn(s, first, u, rest, t);
      assert SameGate(s, t) by {
        SameGateOn(s, u, t);
      }
    }
  }

  lemma SameGateOn(s: State, t: State, u: State)
    requires SameGate(s, t) && SameGate(t, u)
    ensures SameGate(s, u)
  {
  }

  // ---------- The queues ----------

  predicate AllDue(w: Waiting, now: nat) {
    && (forall i | 0 <= i < |w.interactive| :: w.interactive[i].Deadline() <= now)
    && (forall i | 0 <= i < |w.agents| :: w.agents[i].Deadline() <= now)
  }

  function Latest(jobs: seq<Job>): (time: nat)
    ensures forall i | 0 <= i < |jobs| :: jobs[i].Deadline() <= time
  {
    if jobs == [] then 0
    else
      var rest := Latest(jobs[1..]);
      assert forall i | 0 < i < |jobs| :: jobs[i] == jobs[1..][i - 1];
      if jobs[0].Deadline() <= rest then rest else jobs[0].Deadline()
  }

  /** The front job leaves, and nothing else of the gateway has changed. */
  lemma ExpireOne(s: State) returns (steps: seq<Step>, t: State)
    requires s.lock.Scheduling? && AllDue(s.books.waiting, s.now) && s.Queued() > 0
    ensures Settles(s, steps, t) && SameGate(s, t) && t.Queued() == s.Queued() - 1
    ensures AllDue(t.books.waiting, t.now) && (Idle(s) ==> Idle(t))
  {
    var cls := if s.books.waiting.interactive != [] then Interactive else Agent;
    var jobs := s.books.waiting.Of(cls);
    var r := Removal(cls, 0, jobs[0], Expired);
    steps := SettlesStep(s, Drop(r));
    t := Removed(s, r);
    assert RemoveAt(jobs, 0) == jobs[1..];
    hide Settles, Release1, RemoveAt;
  }

  /** Once every deadline has passed, maintenance empties the queues. */
  lemma {:induction false} ExpireQueued(s: State) returns (steps: seq<Step>, t: State)
    requires s.lock.Scheduling? && AllDue(s.books.waiting, s.now)
    ensures Settles(s, steps, t) && SameGate(s, t) && t.Queued() == 0 && (Idle(s) ==> Idle(t))
    decreases s.Queued()
  {
    if s.Queued() == 0 {
      steps, t := [], s;
    } else {
      var first, u := ExpireOne(s);
      assert u.lock == s.lock;
      hide Settles, SameGate, AllDue, Idle;
      var rest;
      rest, t := ExpireQueued(u);
      steps := SettlesOn(s, first, u, rest, t);
      SameGateOn(s, u, t);
    }
  }

  /** The pass is over: the lock is free, and the scheduler has returned if it was the last one. */
  predicate PassOver(s: State, t: State) {
    && t.lock.Free? && t.closing == s.closing && t.owner == s.owner && t.Running() == s.Running()
    && (Idle(s) ==> Idle(t))
    && (if s.closing && s.Running() == 0 then t.scheduler.Returned? else t.scheduler.Leaving?)
  }

  /** A pass that finds nothing queued ends. */
  lemma LeaveEmpty(s: State) returns (steps: seq<Step>, t: State)
    requires s.lock.Scheduling? && s.scheduler.Pass? && s.Queued() == 0
    ensures Settles(s, steps, t) && PassOver(s, t)
  {
    var first, u := [], s;
    if s.Running() < s.cfg.limit {
      first := SettlesStep(s, FindNone);
      u := Apply(s, FindNone);
    } else {
      SettlesNot(s);
    }
    var second := SettlesStep(u, Leave);
    t := Apply(u, Leave);
    hide Settles;
    steps := SettlesOn(s, first, u, second, t);
  }

  /** A pass over expired jobs ends with nothing queued. */
  lemma EndPass(s: State) returns (steps: seq<Step>, t: State)
    requires s.lock.Scheduling? && s.scheduler.Pass?
    ensures Settles(s, steps, t) && PassOver(s, t)
  {
    var w := s.books.waiting;
    var late := s.now + Latest(w.interactive) + Latest(w.agents);
    var u := Apply(s, Tick(late));
    var first := SettlesStep(s, Tick(late));
    assert AllDue(u.books.waiting, u.now) && SameGate(s, u) && (Idle(s) ==> Idle(u));
    hide Apply, Enabled, Settles, AllDue, Latest;
    var second, v := ExpireQueued(u);
    var both := SettlesOn(s, first, u, second, v);
    SameGateOn(s, u, v);
    var third, last := LeaveEmpty(v);
    t := last;
    steps := SettlesOn(s, both, v, third, t);
  }

  // ---------- The scheduler ----------

  /** A closing gateway whose scheduler is about to look again: join what is finished, then one pass. */
  lemma {:induction false} FromTop(s: State) returns (steps: seq<Step>, t: State)
    requires Closing(s) && Idle(s) && s.scheduler.Top? && s.lock.Free?
    ensures Settles(s, steps, t) && t.scheduler.Returned?
    decreases s.finished
  {
    var step := if s.finished > 0 then Join else Lock;
    var u := Apply(s, step);
    var first := SettlesStep(s, step);
    hide Settles;
    var rest;
    if s.finished > 0 {
      rest, t := FromTop(u);
    } else {
      rest, t := EndPass(u);
    }
    steps := SettlesOn(s, first, u, rest, t);
  }

  lemma CoveredTimer(timer: Option<nat>, w: Waiting)
    requires TimerCovers(timer, w) && w.Size() > 0
    ensures timer.Some?
  {
    if w.interactive != [] {
      assert w.interactive[0] in w.interactive;
    } else {
      assert w.agents[0] in w.agents;
    }
  }

  /** A sleeping scheduler of a closing gateway can be woken: by a task to join, a notification assigned or owed to it,
      or the deadline it sleeps for. */
  lemma FromParked(s: State) returns (steps: seq<Step>, t: State)
    requires Awake(s) && Closing(s) && Idle(s) && s.scheduler.Parked?
    ensures Settles(s, steps, t) && t.scheduler.Top? && Closing(t) && Idle(t) && t.lock == s.lock
  {
    hide Settles;
    if s.finished > 0 {
      steps := SettlesStep(s, WakeJoin);
      t := Apply(s, WakeJoin);
    } else if s.scheduler.woken {
      steps := SettlesStep(s, WakeNotified);
      t := Apply(s, WakeNotified);
    } else if s.notifying != {} {
      var c :| c in s.notifying;
      var u := Apply(s, Notify(c));
      var first := SettlesStep(s, Notify(c));
      var second := SettlesStep(u, WakeNotified);
      t := Apply(u, WakeNotified);
      steps := SettlesOn(s, first, u, second, t);
    } else {
      assert Asleep(s) && s.Queued() > 0;
      CoveredTimer(s.scheduler.timer, s.books.waiting);
      var late := s.now + s.scheduler.timer.value;
      var u := Apply(s, Tick(late));
      var first := SettlesStep(s, Tick(late));
      var second := SettlesStep(u, WakeTimer);
      t := Apply(u, WakeTimer);
      steps := SettlesOn(s, first, u, second, t);
    }
  }

  /** From wherever the scheduler waits, on to its return. */
  lemma FromWait(s: State) returns (steps: seq<Step>, t: State)
    requires Inv(s) && Closing(s) && Idle(s) && s.lock.Free? && (s.scheduler.Leaving? || s.scheduler.Parked?)
    ensures Settles(s, steps, t) && t.scheduler.Returned?
  {
    var first, u := [], s;
    if s.scheduler.Leaving? {
      first := SettlesStep(s, Park);
      u := Apply(s, Park);
      StepInv(s, Park);
    } else {
      SettlesNot(s);
    }
    hide Settles, Shape, Conserved, Awake;
    var second, v := FromParked(u);
    var third, last := FromTop(v);
    var both := SettlesOn(s, first, u, second, v);
    t := last;
    steps := SettlesOn(s, both, v, third, t);
  }

  /** From an idle closing gateway whose lock no caller holds. */
  lemma FromIdle(s: State) returns (steps: seq<Step>, t: State)
    requires Inv(s) && Closing(s) && Idle(s) && (s.lock.Free? || s.lock.Scheduling?)
    ensures Settles(s, steps, t) && t.scheduler.Returned?
  {
    if s.scheduler.Returned? {
      SettlesNot(s);
      steps, t := [], s;
    } else if s.scheduler.Top? {
      steps, t := FromTop(s);
    } else if s.scheduler.Pass? {
      var first, u := EndPass(s);
      if u.scheduler.Returned? {
        steps, t := first, u;
      } else {
        SettlesInv(s, first, u);
        var rest;
        rest, t := FromWait(u);
        steps := SettlesOn(s, first, u, rest, t);
      }
    } else {
      steps, t := FromWait(s);
    }
  }

  /** Once sealed, no caller is in that could push. */
  lemma {:induction false} SealedPushesNothing(s: State, steps: seq<Step>)
    requires Sealed(s) && IsRun(s, steps)
    ensures forall i | 0 <= i < |steps| :: !steps[i].Push?
    decreases |steps|
  {
    if steps != [] {
      SealedStep(s, steps[0]);
      assert !steps[0].Push?;
      hide Apply, Enabled, Sealed;
      SealedPushesNothing(Apply(s, steps[0]), steps[1..]);
      assert forall i | 0 < i < |steps| :: steps[i] == steps[1..][i - 1];
    }
  }

  lemma SettlesInv(s: State, steps: seq<Step>, t: State)
    requires Inv(s) && Settles(s, steps, t)
    ensures Inv(t)
  {
    RunInv(s, steps);
  }

  /** After a close the drain can always be completed, from every reachable state and without any further caller:
      running work ends, queued work passes its deadline, and the scheduler returns. */
  lemma DrainCompletes(s: State) returns (steps: seq<Step>)
    requires Reachable(s) && Closing(s)
    ensures IsRun(s, steps) && Admitless(steps)
    ensures var t := After(s, steps); t.scheduler.Returned? && t.Queued() == 0 && t.Running() == 0
  {
    ReachableInv(s);
    var first, u := [], s;
    if s.lock.Entered? {
      first := SettlesStep(s, SeeClosed);
      u := Apply(s, SeeClosed);
    } else {
      SettlesNot(s);
    }
    assert Closing(u) && (u.lock.Free? || u.lock.Scheduling?);
    SettlesInv(s, first, u);
    var second, v := FinishTasks(u);
    SettlesInv(u, second, v);
    var third, t := FromIdle(v);
    hide Settles;
    var both := SettlesOn(s, first, u, second, v);
    steps := SettlesOn(s, both, v, third, t);
    SettlesInv(s, steps, t);
    SettlesRun(s, steps, t);
    hide Inv, IsRun, After;
    SealedPushesNothing(s, steps);
  }

  lemma SettlesRun(s: State, steps: seq<Step>, t: State)
    requires Settles(s, steps, t)
    ensures IsRun(s, steps) && After(s, steps) == t && Enterless(steps)
  {
  }

  // ---------- Drop ----------

  /** Whoever holds the lock of a dropped gateway can let it go. */
  lemma FreeLock(s: State) returns (steps: seq<Step>, t: State)
    requires Inv(s) && !s.owner.Alive?
    ensures Settles(s, steps, t) && t.lock.Free? && (t.owner == s.owner || t.owner.Rejected?)
  {
    match s.lock
    case Free =>
      SettlesNot(s);
      steps, t := [], s;
    case Entered(_, _) =>
      steps := SettlesStep(s, SeeClosed);
      t := Apply(s, SeeClosed);
    case Open(_, key) =>
      if Admits(s.books.ledger[key]) {
        var first := SettlesStep(s, Acquire);
        var u := Apply(s, Acquire);
        hide Settles, Inv;
        var rest;
        rest, t := FreeHolding(u);
        steps := SettlesOn(s, first, u, rest, t);
      } else {
        steps := SettlesStep(s, Exhausted);
        t := Apply(s, Exhausted);
      }
    case Holding(_, _) => steps, t := FreeHolding(s);
    case Scheduling => steps, t := EndPass(s);
    case Rejecting => steps, t := RejectQueued(s);
  }

  lemma FreeHolding(s: State) returns (steps: seq<Step>, t: State)
    requires s.lock.Holding?
    ensures Settles(s, steps, t) && t.lock.Free? && t.owner == s.owner
  {
    var step := if |s.books.waiting.Of(s.lock.key.cls)| >= s.cfg.capacity then Full else Push;
    steps := SettlesStep(s, step);
    t := Apply(s, step);
    hide Settles;
  }

  /** The drop empties the queues. */
  lemma {:induction false} RejectQueued(s: State) returns (steps: seq<Step>, t: State)
    requires s.lock.Rejecting?
    ensures Settles(s, steps, t) && t.lock.Free? && t.owner.Rejected?
    decreases s.Queued()
  {
    if s.Queued() == 0 {
      steps := SettlesStep(s, RejectDone);
      t := Apply(s, RejectDone);
    } else {
      var first, u := RejectFront(s);
      hide Settles;
      var rest;
      rest, t := RejectQueued(u);
      steps := SettlesOn(s, first, u, rest, t);
    }
  }

  lemma RejectFront(s: State) returns (steps: seq<Step>, t: State)
    requires s.lock.Rejecting? && s.Queued() > 0
    ensures Settles(s, steps, t) && t.lock == s.lock && t.Queued() == s.Queued() - 1
  {
    var cls := if s.books.waiting.interactive != [] then Interactive else Agent;
    steps := SettlesStep(s, RejectOne(cls));
    t := Apply(s, RejectOne(cls));
    hide Settles, Release1;
  }

  /** From a free lock, the drop goes on to its end. */
  lemma RejectFromFree(s: State) returns (steps: seq<Step>, t: State)
    requires s.lock.Free? && !s.owner.Alive?
    ensures Settles(s, steps, t) && t.lock.Free? && t.owner.Rejected?
  {
    if s.owner.Rejected? {
      SettlesNot(s);
      steps, t := [], s;
    } else {
      var first, u := [], s;
      if s.owner.Flagged? {
        first := SettlesStep(s, SendAbort);
        u := Apply(s, SendAbort);
      } else {
        SettlesNot(s);
      }
      var second := SettlesStep(u, RejectLock);
      var v := Apply(u, RejectLock);
      assert v.lock.Rejecting?;
      hide Settles, Apply, Enabled;
      var both := SettlesOn(s, first, u, second, v);
      var third;
      third, t := RejectQueued(v);
      steps := SettlesOn(s, both, v, third, t);
    }
  }

  /** The aborted scheduler stops wherever it waits. */
  lemma StopScheduler(s: State) returns (steps: seq<Step>, t: State)
    requires s.owner.Rejected? && !s.scheduler.Pass?
    ensures Settles(s, steps, t) && (t.scheduler.Aborted? || t.scheduler.Returned?)
    ensures t.owner == s.owner && t.executing == s.executing && t.settling == s.settling
  {
    match s.scheduler
    case Leaving(_) =>
      var first := SettlesStep(s, Park);
      var u := Apply(s, Park);
      var second := SettlesStep(u, Abort);
      t := Apply(u, Abort);
      hide Settles;
      steps := SettlesOn(s, first, u, second, t);
    case Returned =>
      SettlesNot(s);
      steps, t := [], s;
    case Aborted =>
      SettlesNot(s);
      steps, t := [], s;
    case Top =>
      steps := SettlesStep(s, Abort);
      t := Apply(s, Abort);
    case Parked(_, _) =>
      steps := SettlesStep(s, Abort);
      t := Apply(s, Abort);
    case Pass =>
      assert false;
  }

  /** After a drop, in whatever state it happened, the gateway can always be cleaned up without any further caller:
      everything queued is refused, running work ends, the scheduler is gone and every budget is back at zero. */
  lemma DropCompletes(s: State) returns (steps: seq<Step>)
    requires Reachable(s) && !s.owner.Alive?
    ensures IsRun(s, steps) && Enterless(steps)
    ensures var t := After(s, steps);
            && t.owner.Rejected? && (t.scheduler.Aborted? || t.scheduler.Returned?)
            && t.Queued() == 0 && Idle(t)
            && forall key | key in t.books.ledger :: t.books.ledger[key].outstanding == 0
  {
    ReachableInv(s);
    var first, u := FreeLock(s);
    var second, v := RejectFromFree(u);
    var third, w := FinishTasks(v);
    var both := SettlesOn(s, first, u, second, v);
    var all := SettlesOn(s, both, v, third, w);
    SettlesInv(s, all, w);
    assert !w.scheduler.Pass?;
    var last, t := StopScheduler(w);
    steps := SettlesOn(s, all, w, last, t);
    SettlesInv(s, steps, t);
    SettlesRun(s, steps, t);
    NothingHeld(t);
  }

  lemma NothingHeld(s: State)
    requires Inv(s) && s.owner.Rejected? && Idle(s)
    ensures s.Queued() == 0
    ensures forall key | key in s.books.ledger :: s.books.ledger[key].outstanding == 0
  {
    forall key | key in s.books.ledger
      ensures s.books.ledger[key].outstanding == PermitsOut(s, key) == 0
    {
      InvConserved(s);
    }
  }
}
