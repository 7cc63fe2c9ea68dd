/** Order over whole runs: admission numbers leave in order, and neither class is bypassed for long. */
module GatewayOrder {
  import opened Wrappers
  import opened Budgets
  import opened Responses
  import opened Queueing
  import opened Gateway
  import opened GatewayEffects
  import opened GatewayCallers
  import opened GatewayInvariants

  // ---------- Admission order ----------

  predicate Increasing(jobs: seq<Job>) {
    forall i, j | 0 <= i < j < |jobs| :: jobs[i].order < jobs[j].order
  }

  predicate AllBelow(jobs: seq<Job>, bound: nat) {
    forall i | 0 <= i < |jobs| :: jobs[i].order < bound
  }

  predicate AllAbove(jobs: seq<Job>, order: nat) {
    forall i | 0 <= i < |jobs| :: order < jobs[i].order
  }

  /** In FIFO mode every two hand-offs are compared, in weighted mode those of one class. */
  predicate Compared(mode: Mode, a: Class, b: Class) {
    mode.Fifo? || a == b
  }

  predicate QueuesOrdered(w: Waiting, nextOrder: nat) {
    && Increasing(w.interactive) && Increasing(w.agents)
    && AllBelow(w.interactive, nextOrder) && AllBelow(w.agents, nextOrder)
    && forall i, j | 0 <= i < |w.interactive| && 0 <= j < |w.agents| :: w.interactive[i].order != w.agents[j].order
  }

  predicate Ahead(mode: Mode, h: Handoff, w: Waiting, nextOrder: nat) {
    && h.order < nextOrder
    && (Compared(mode, h.cls, Interactive) ==> AllAbove(w.interactive, h.order))
    && (Compared(mode, h.cls, Agent) ==> AllAbove(w.agents, h.order))
  }

  predicate HandoffsOrdered(mode: Mode, handoffs: seq<Handoff>) {
    forall i, j | 0 <= i < j < |handoffs| && Compared(mode, handoffs[i].cls, handoffs[j].cls) ::
      handoffs[i].order < handoffs[j].order
  }

  predicate Ordered(s: State) {
    && QueuesOrdered(s.books.waiting, s.nextOrder)
    && HandoffsOrdered(s.cfg.mode, s.history.handoffs)
    && forall i | 0 <= i < |s.history.handoffs| ::
         Ahead(s.cfg.mode, s.history.handoffs[i], s.books.waiting, s.nextOrder)
  }

  lemma RemoveOrdered(jobs: seq<Job>, i: nat)
    requires i < |jobs| && Increasing(jobs)
    ensures Increasing(RemoveAt(jobs, i))
    ensures forall x | x in RemoveAt(jobs, i) :: x in jobs
    ensures forall bound :: AllBelow(jobs, bound) ==> AllBelow(RemoveAt(jobs, i), bound)
    ensures forall order :: AllAbove(jobs, order) ==> AllAbove(RemoveAt(jobs, i), order)
  {
  }

  lemma ShrinkOrdered(s: State, t: State, cls: Class, i: nat)
    requires Ordered(s) && i < |s.books.waiting.Of(cls)|
    requires t.books.waiting == s.books.waiting.With(cls, RemoveAt(s.books.waiting.Of(cls), i))
    requires t.nextOrder == s.nextOrder && t.cfg == s.cfg && t.history.handoffs == s.history.handoffs
    ensures Ordered(t)
  {
    RemoveOrdered(s.books.waiting.Of(cls), i);
    hide Increasing, AllBelow, AllAbove, HandoffsOrdered;
  }

  lemma RemovedOrdered(s: State, r: Removal)
    requires Ordered(s) && Removable(s.books, r)
    ensures Ordered(Removed(s, r))
  {
    ShrinkOrdered(s, Removed(s, r), r.cls, r.index);
  }

  lemma AppendOrdered(jobs: seq<Job>, job: Job)
    requires Increasing(jobs) && AllBelow(jobs, job.order)
    ensures Increasing(jobs + [job]) && AllBelow(jobs + [job], job.order + 1)
    ensures forall order: nat | order < job.order && AllAbove(jobs, order) :: AllAbove(jobs + [job], order)
  {
  }

  lemma QueuesAppend(w: Waiting, cls: Class, job: Job)
    requires QueuesOrdered(w, job.order)
    ensures QueuesOrdered(w.With(cls, w.Of(cls) + [job]), job.order + 1)
  {
    AppendOrdered(w.Of(cls), job);
    hide Increasing, AllAbove;
  }

  lemma AheadAppend(mode: Mode, h: Handoff, w: Waiting, cls: Class, job: Job)
    requires Ahead(mode, h, w, job.order) && QueuesOrdered(w, job.order)
    ensures Ahead(mode, h, w.With(cls, w.Of(cls) + [job]), job.order + 1)
  {
    AppendOrdered(w.Of(cls), job);
    hide Increasing, AllBelow, AllAbove;
  }

  lemma PushOrdered(s: State)
    requires Ordered(s) && s.lock.Holding?
    ensures Ordered(Pushed(s))
  {
    var t := Pushed(s);
    hide Ahead, QueuesOrdered;
    QueuesAppend(s.books.waiting, s.lock.key.cls, Admitted(s));
    forall i | 0 <= i < |s.history.handoffs|
      ensures Ahead(s.cfg.mode, s.history.handoffs[i], t.books.waiting, t.nextOrder)
    {
      AheadAppend(s.cfg.mode, s.history.handoffs[i], s.books.waiting, s.lock.key.cls, Admitted(s));
    }
  }

  /** The selected front job comes before every other job it is compared with. */
  lemma SelectedIsFirst(mode: Mode, streak: nat, w: Waiting, nextOrder: nat, cls: Class)
    requires QueuesOrdered(w, nextOrder) && Chosen(mode, streak, w) == Some(cls)
    ensures var order, rest := w.Of(cls)[0].order, w.With(cls, w.Of(cls)[1..]);
            Ahead(mode, Handoff(w.Of(cls)[0].reply, cls, order), rest, nextOrder)
  {
  }

  lemma HandOffOrdered(s: State, cls: Class)
    requires Ordered(s) && s.Select() == Some(cls)
    ensures Ordered(HandedOff(s, cls))
  {
    var jobs, t := s.books.waiting.Of(cls), HandedOff(s, cls);
    assert RemoveAt(jobs, 0) == jobs[1..];
    SelectedIsFirst(s.cfg.mode, s.streak, s.books.waiting, s.nextOrder, cls);
    var u := s.(books := Popped(s.books, cls));
    ShrinkOrdered(s, u, cls, 0);
    var h := Handoff(jobs[0].reply, cls, jobs[0].order);
    forall i | 0 <= i < |s.history.handoffs| && Compared(s.cfg.mode, s.history.handoffs[i].cls, cls)
      ensures s.history.handoffs[i].order < h.order
    {
      assert Ahead(s.cfg.mode, s.history.handoffs[i], s.books.waiting, s.nextOrder);
      assert AllAbove(jobs, s.history.handoffs[i].order);
    }
    hide Increasing, AllBelow, AllAbove, QueuesOrdered, Ahead;
    assert t.history.handoffs == s.history.handoffs + [h];
  }

  predicate MovesOrder(step: Step) {
    step.Drop? || step.RejectOne? || step.Push? || step.HandOff? || step.Full?
  }

  lemma QuietOrder(s: State, step: Step)
    requires Enabled(s, step) && !MovesOrder(step)
    ensures var t := Apply(s, step);
            && t.books.waiting == s.books.waiting && t.nextOrder == s.nextOrder && t.cfg == s.cfg
            && t.history.handoffs == s.history.handoffs
            && (t.streak == s.streak || (s.Queued() == 0 && t.streak == 0))
  {
    Kinds(step);
    if ByTask(step) {
      TaskFrame(s, step);
    } else if Refuses(step) {
      RefusalFrame(s, step);
    } else if Enters(step) {
      EntryFrame(s, step);
    } else if ByScheduler(step) {
      SchedulerFrame(s, step);
    } else {
      AroundFrame(s, step);
    }
    hide Apply, Enabled;
  }

  lemma NumberTaken(s: State, t: State)
    requires Ordered(s) && t.books.waiting == s.books.waiting && t.nextOrder >= s.nextOrder && t.cfg == s.cfg
    requires t.history.handoffs == s.history.handoffs
    ensures Ordered(t)
  {
    forall i | 0 <= i < |t.history.handoffs|
      ensures Ahead(t.cfg.mode, t.history.handoffs[i], t.books.waiting, t.nextOrder)
    {
      assert Ahead(s.cfg.mode, s.history.handoffs[i], s.books.waiting, s.nextOrder);
    }
    hide HandoffsOrdered, Increasing, AllAbove;
  }

  /** Hand-offs keep increasing, whatever leaves the queues in between and whichever numbers a full queue wastes. */
  lemma OrderedStep(s: State, step: Step)
    requires Ordered(s) && Enabled(s, step)
    ensures Ordered(Apply(s, step))
  {
    hide Ordered;
    var t := Apply(s, step);
    if !MovesOrder(step) {
      QuietOrder(s, step);
      hide Apply, Enabled;
      NumberTaken(s, t);
    } else if step.Full? {
      RefusalFrame(s, step);
      hide Apply, Enabled;
      NumberTaken(s, t);
    } else {
      hide RemoveAt, Release1, NextStreak, Stays, MayDrop, Chosen;
      match step
      case Drop(r) => RemovedOrdered(s, r);
      case RejectOne(cls) => RemovedOrdered(s, Removal(cls, 0, s.books.waiting.Of(cls)[0], Refused));
      case Push => PushOrdered(s);
      case HandOff => HandOffOrdered(s, s.Select().value);
    }
  }

  // ---------- Bypass in weighted mode ----------

  /** The step hands off a job of class `cls`. */
  predicate Hands(s: State, step: Step, cls: Class) {
    step.HandOff? && s.Select() == Some(cls)
  }

  /** The hand-offs of the other class while caller `c` waits in the queue of class `cls`. */
  ghost function Bypasses(s: State, steps: seq<Step>, cls: Class, c: nat): nat
    requires IsRun(s, steps)
    decreases steps
  {
    if steps == [] || Count(s.books.waiting.Of(cls), c) == 0 then 0
    else
      (if Hands(s, steps[0], Other(cls)) then 1 else 0) + Bypasses(Apply(s, steps[0]), steps[1..], cls, c)
  }

  /** How many hand-offs of the other class a job at `index` may still see. */
  function Allowance(cls: Class, index: nat, streak: nat): int {
    if cls.Agent? then 3 * (index + 1) - streak else (index + streak) / 3
  }

  predicate WaitsAt(s: State, cls: Class, c: nat, index: nat) {
    index < |s.books.waiting.Of(cls)| && s.books.waiting.Of(cls)[index].reply == c
  }

  lemma GoneOnceRemoved(s: State, cls: Class, c: nat, index: nat)
    requires OnePlace(s) && WaitsAt(s, cls, c, index)
    ensures Count(RemoveAt(s.books.waiting.Of(cls), index), c) == 0
  {
    TallyRemove(s.books.waiting.Of(cls), index);
    CountPositive(s.books.waiting.Of(cls), c);
    assert Places(s, c) <= 1;
  }

  /** Where caller `c` is after the job at `i` left: gone, one place further, or where it was. */
  lemma Advance(s: State, cls: Class, c: nat, index: nat, i: nat) returns (next: nat)
    requires OnePlace(s) && WaitsAt(s, cls, c, index) && i < |s.books.waiting.Of(cls)|
    ensures next <= index && (i < index ==> next + 1 == index)
    ensures var left := RemoveAt(s.books.waiting.Of(cls), i);
            if i == index then Count(left, c) == 0 else next < |left| && left[next].reply == c
  {
    if i == index {
      GoneOnceRemoved(s, cls, c, index);
    }
    next := if i < index then index - 1 else index;
  }

  /** Caller `c` has left, or is no further back and its allowance covers what the step used. */
  predicate Paid(s: State, t: State, cls: Class, c: nat, index: nat, next: nat, used: nat) {
    if Count(t.books.waiting.Of(cls), c) == 0 then used <= Allowance(cls, index, s.streak)
    else WaitsAt(t, cls, c, next) && used + Allowance(cls, next, t.streak) <= Allowance(cls, index, s.streak)
  }

  function Other(cls: Class): Class {
    if cls.Agent? then Interactive else Agent
  }

  /** What one weighted selection does to the allowance of a job that waits at `index`. */
  lemma AllowanceFalls(streak: nat, w: Waiting, cls: Class, index: nat)
    requires streak <= 3 && index < |w.Of(cls)| && Chosen(Weighted, streak, w).Some?
    ensures var next := NextStreak(Weighted, streak, w, Chosen(Weighted, streak, w).value);
            && Allowance(cls, index, streak) >= 0
            && (Chosen(Weighted, streak, w) == Some(cls) && index > 0 ==>
                  Allowance(cls, index - 1, next) <= Allowance(cls, index, streak))
            && (Chosen(Weighted, streak, w) != Some(cls) ==>
                  1 <= 1 + Allowance(cls, index, next) <= Allowance(cls, index, streak))
  {
  }

  lemma HandOffPaid(s: State, cls: Class, c: nat, index: nat) returns (next: nat)
    requires OnePlace(s) && s.streak <= 3 && s.cfg.mode.Weighted? && s.Select().Some? && WaitsAt(s, cls, c, index)
    ensures Paid(s, HandedOff(s, s.Select().value), cls, c, index, next,
                 if s.Select() == Some(Other(cls)) then 1 else 0)
  {
    hide OnePlace, Count, Allowance, NextStreak, Chosen;
    AllowanceFalls(s.streak, s.books.waiting, cls, index);
    var t, jobs := HandedOff(s, s.Select().value), s.books.waiting.Of(cls);
    assert t.streak == NextStreak(Weighted, s.streak, s.books.waiting, s.Select().value);
    next := index;
    if s.Select() == Some(cls) {
      assert t.books.waiting.Of(cls) == jobs[1..] == RemoveAt(jobs, 0);
      next := Advance(s, cls, c, index, 0);
    } else {
      assert t.books.waiting.Of(cls) == jobs;
    }
    hide RemoveAt;
  }

  lemma RemovalPaid(s: State, r: Removal, cls: Class, c: nat, index: nat) returns (next: nat)
    requires OnePlace(s) && s.streak <= 3 && Removable(s.books, r) && WaitsAt(s, cls, c, index)
    ensures Paid(s, Removed(s, r), cls, c, index, next, 0)
  {
    hide OnePlace, Count;
    next := index;
    if r.cls == cls {
      next := Advance(s, cls, c, index, r.index);
    }
  }

  lemma StayPaid(s: State, step: Step, cls: Class, c: nat, index: nat)
    requires Shape(s) && Enabled(s, step) && (step.Push? || step.Full? || !MovesOrder(step))
    requires WaitsAt(s, cls, c, index)
    ensures Paid(s, Apply(s, step), cls, c, index, index, 0)
  {
    hide Execute, RefusedEarly, Stays, MayDrop, Remove, RemoveAt, Popped, Chosen, NextStreak, Count;
    if !MovesOrder(step) {
      QuietOrder(s, step);
      hide Apply, Enabled;
    }
  }

  lemma ShapeStreak(s: State)
    requires Shape(s)
    ensures s.streak <= 3
  {
  }

  /** One step of a run: caller `c` leaves, or moves no further back, and every hand-off of the other class uses
      up one of its allowance. */
  lemma BypassStep(s: State, step: Step, cls: Class, c: nat, index: nat) returns (next: nat)
    requires OnePlace(s) && Shape(s) && s.cfg.mode.Weighted? && Enabled(s, step) && WaitsAt(s, cls, c, index)
    ensures Paid(s, Apply(s, step), cls, c, index, next, if Hands(s, step, Other(cls)) then 1 else 0)
  {
    hide OnePlace, Shape, WaitsAt, Paid, Apply, Enabled, Removed, Removable, HandedOff;
    ShapeStreak(s);
    next := index;
    if TakesOut(step) {
      RemovalStep(s, step);
      next := RemovalPaid(s, RemovalOf(s, step), cls, c, index);
    } else if step.HandOff? {
      HandOffEffect(s);
      next := HandOffPaid(s, cls, c, index);
    } else {
      StayPaid(s, step, cls, c, index);
    }
  }

  /** An agent job at `index` sees at most 3 * (index + 1) interactive hand-offs before it leaves its queue, an
      interactive job at most (index + streak) / 3 agent hand-offs, whatever arrives, expires or departs meanwhile. */
  lemma {:induction false} Bypassed(s: State, steps: seq<Step>, cls: Class, c: nat, index: nat)
    requires OnePlace(s) && OneFate(s) && Shape(s) && s.cfg.mode.Weighted? && IsRun(s, steps)
    requires WaitsAt(s, cls, c, index)
    ensures Bypasses(s, steps, cls, c) <= Allowance(cls, index, s.streak)
    decreases steps
  {
    if steps != [] {
      var t := Apply(s, steps[0]);
      CountPositive(s.books.waiting.Of(cls), c);
      var next := BypassStep(s, steps[0], cls, c, index);
      CallersStep(s, steps[0]);
      ShapeStep(s, steps[0]);
      hide OnePlace, OneFate, Shape, Apply, Enabled, Count;
      if Count(t.books.waiting.Of(cls), c) > 0 {
        ConfigStays(s, steps[0]);
        Bypassed(t, steps[1..], cls, c, next);
      }
    }
  }
}
