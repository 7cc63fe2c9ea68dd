/** What each kind of step changes, and so what it leaves alone. The invariants are proved kind by kind from these. */
module GatewayEffects {
  import opened Budgets
  import opened Responses
  import opened Queueing
  import opened Gateway

  /** An execution task goes on. */
  predicate ByTask(step: Step) {
    step.Complete? || step.Reply? || step.Lose?
  }

  /** A caller is answered without being queued. */
  predicate Refuses(step: Step) {
    step.RefuseEarly? || step.SeeClosed? || step.Exhausted? || step.Full?
  }

  /** A caller gets on, or a budget is resized. */
  predicate Enters(step: Step) {
    step.Enter? || step.SeeOpen? || step.Acquire? || step.Resize?
  }

  /** A job enters or leaves a queue. */
  predicate MovesJob(step: Step) {
    step.Push? || step.Drop? || step.RejectOne? || step.HandOff?
  }

  /** A queued job is removed without being handed off. */
  predicate TakesOut(step: Step) {
    step.Drop? || step.RejectOne?
  }

  /** The scheduler goes on, but for a hand-off. */
  predicate ByScheduler(step: Step) {
    || step.Join? || step.Lock? || step.FindNone? || step.Leave? || step.Park? || step.WakeNotified? || step.WakeJoin?
    || step.WakeTimer? || step.Abort?
  }

  /** The rest: readings, notifications, and the owner of the gateway. */
  predicate Around(step: Step) {
    || step.Tick? || step.Depart? || step.Notify? || step.Close? || step.Flag? || step.SendAbort? || step.RejectLock?
    || step.RejectDone?
  }

  lemma Kinds(step: Step)
    ensures ByTask(step) || Refuses(step) || Enters(step) || MovesJob(step) || ByScheduler(step) || Around(step)
  {
  }

  /** What a removing step removes. */
  function RemovalOf(s: State, b: Step): Removal
    requires TakesOut(b) && (b.RejectOne? ==> s.books.waiting.Of(b.cls) != [])
  {
    match b
    case Drop(r) => r
    case RejectOne(cls) => Removal(cls, 0, s.books.waiting.Of(cls)[0], Refused)
  }

  lemma RemovalStep(s: State, b: Step)
    requires TakesOut(b) && Enabled(s, b)
    ensures b.RejectOne? ==> s.books.waiting.Of(b.cls) != []
    ensures Removable(s.books, RemovalOf(s, b)) && Apply(s, b) == Removed(s, RemovalOf(s, b))
  {
    hide Removed;
  }

  lemma HandOffEffect(s: State)
    requires Enabled(s, HandOff)
    ensures s.Select().Some? && Apply(s, HandOff) == HandedOff(s, s.Select().value)
  {
    hide HandedOff, Chosen, Stays;
  }

  lemma ReleaseKeys(ledger: Ledger, key: Key)
    ensures Release1(ledger, key).Keys == ledger.Keys
  {
  }

  /** Only the tasks, the budgets and the answers have moved. */
  predicate OnlyTasks(s: State, t: State) {
    && t == s.(executing := t.executing, settling := t.settling, finished := t.finished,
               books := s.books.(ledger := t.books.ledger, answers := t.books.answers))
    && t.Running() == s.Running() && s.books.answers <= t.books.answers
    && t.books.ledger.Keys == s.books.ledger.Keys
  }

  lemma CompleteFrame(s: State, step: Step)
    requires step.Complete? && Enabled(s, step)
    ensures OnlyTasks(s, Apply(s, step))
  {
    ReleaseKeys(s.books.ledger, s.executing[step.task].permit);
    hide RemoveAt, Execute, Release1;
  }

  lemma LoseFrame(s: State, step: Step)
    requires step.Lose? && Enabled(s, step)
    ensures OnlyTasks(s, Apply(s, step))
  {
    ReleaseKeys(s.books.ledger, s.executing[step.task].permit);
    hide RemoveAt, LostReply, Release1;
  }

  lemma ReplyFrame(s: State, step: Step)
    requires step.Reply? && Enabled(s, step)
    ensures OnlyTasks(s, Apply(s, step))
    ensures Apply(s, step).executing == s.executing && Apply(s, step).books.ledger == s.books.ledger
  {
    hide RemoveAt;
  }

  lemma TaskFrame(s: State, step: Step)
    requires ByTask(step) && Enabled(s, step)
    ensures OnlyTasks(s, Apply(s, step))
  {
    if step.Complete? {
      CompleteFrame(s, step);
      hide Apply, Enabled;
    } else if step.Lose? {
      LoseFrame(s, step);
      hide Apply, Enabled;
    } else {
      ReplyFrame(s, step);
      hide Apply, Enabled;
    }
  }

  lemma RefusalFrame(s: State, step: Step)
    requires Refuses(step) && Enabled(s, step)
    ensures var t := Apply(s, step);
            && t == s.(lock := t.lock, nextOrder := t.nextOrder, seen := t.seen,
                       books := s.books.(ledger := t.books.ledger, answers := t.books.answers))
            && s.books.answers <= t.books.answers && t.books.ledger.Keys == s.books.ledger.Keys
            && (if step.RefuseEarly? then t.lock == s.lock else t.lock.Free?)
            && (if step.Full? then t.nextOrder == s.nextOrder + 1 else t.nextOrder == s.nextOrder)
            && (!step.Full? ==> t.books.ledger == s.books.ledger)
  {
    if step.Full? {
      ReleaseKeys(s.books.ledger, s.lock.key);
    }
    hide RefusedEarly, Admits, Overloaded, GatewayClosed, Release1;
    match step
    case RefuseEarly(_, _) =>
    case SeeClosed =>
    case Exhausted =>
    case Full =>
  }

  lemma EntryFrame(s: State, step: Step)
    requires Enters(step) && Enabled(s, step)
    ensures var t := Apply(s, step);
            && t == s.(lock := t.lock, seen := t.seen, books := s.books.(ledger := t.books.ledger))
            && t.books.ledger.Keys == s.books.ledger.Keys
            && (step.Resize? ==> t.lock == s.lock)
            && (step.Enter? || step.SeeOpen? ==> t.books.ledger == s.books.ledger)
  {
    hide Admits, Resized, Acquired;
    match step
    case Enter(_, _) =>
    case SeeOpen =>
    case Acquire =>
    case Resize(_, _) =>
  }

  lemma PassFrame(s: State, step: Step)
    requires Enabled(s, step) && (step.Join? || step.Lock? || step.FindNone? || step.Leave?)
    ensures var t := Apply(s, step);
            && t == s.(scheduler := t.scheduler, lock := t.lock, finished := t.finished, streak := t.streak)
            && (step.Lock? || step.Leave? || t.lock == s.lock) && (step.Lock? ==> s.lock.Free? && t.lock.Scheduling?)
            && (step.Leave? ==> s.lock.Scheduling? && t.lock.Free?)
            && (t.streak == s.streak || (step.FindNone? && t.streak == 0 && s.Queued() == 0))
            && (if step.Join? then t.finished + 1 == s.finished else t.finished == s.finished)
  {
    hide NextDeadline;
    match step
    case Join =>
    case Lock =>
    case FindNone =>
    case Leave =>
  }

  lemma WaitFrame(s: State, step: Step)
    requires Enabled(s, step)
    requires step.Park? || step.WakeNotified? || step.WakeJoin? || step.WakeTimer? || step.Abort?
    ensures var t := Apply(s, step);
            && t == s.(scheduler := t.scheduler, stored := t.stored, finished := t.finished)
            && (if step.WakeJoin? then t.finished + 1 == s.finished else t.finished == s.finished)
  {
    match step
    case Park =>
    case WakeNotified =>
    case WakeJoin =>
    case WakeTimer =>
    case Abort =>
  }

  lemma SchedulerFrame(s: State, step: Step)
    requires ByScheduler(step) && Enabled(s, step)
    ensures var t := Apply(s, step);
            && t == s.(scheduler := t.scheduler, lock := t.lock, stored := t.stored, finished := t.finished,
                       streak := t.streak)
            && (step.Lock? || step.Leave? || t.lock == s.lock) && (step.Lock? ==> s.lock.Free? && t.lock.Scheduling?)
            && (step.Leave? ==> s.lock.Scheduling? && t.lock.Free?)
            && (t.streak == s.streak || (step.FindNone? && t.streak == 0 && s.Queued() == 0))
            && (if step.Join? || step.WakeJoin? then t.finished + 1 == s.finished else t.finished == s.finished)
  {
    if step.Join? || step.Lock? || step.FindNone? || step.Leave? {
      PassFrame(s, step);
    } else {
      WaitFrame(s, step);
    }
    hide Apply, Enabled;
  }

  /** A reading of the clock or of departures, a notification, or the flag that closes. */
  lemma SignalFrame(s: State, step: Step)
    requires Enabled(s, step) && (step.Tick? || step.Depart? || step.Notify? || step.Close?)
    ensures var t := Apply(s, step);
            && t == s.(now := t.now, departed := t.departed, scheduler := t.scheduler, stored := t.stored,
                       notifying := t.notifying, closing := t.closing)
            && (s.closing ==> t.closing)
  {
    match step
    case Tick(_) =>
    case Depart(_) =>
    case Notify(_) =>
    case Close =>
  }

  lemma OwnerFrame(s: State, step: Step)
    requires Enabled(s, step) && (step.Flag? || step.SendAbort? || step.RejectLock? || step.RejectDone?)
    ensures var t := Apply(s, step);
            && t == s.(closing := t.closing, owner := t.owner, lock := t.lock) && (s.closing ==> t.closing)
            && (step.RejectLock? || step.RejectDone? || t.lock == s.lock)
            && (step.RejectLock? ==> s.lock.Free? && t.lock.Rejecting?)
            && (step.RejectDone? ==> s.lock.Rejecting? && t.lock.Free?)
  {
    match step
    case Flag =>
    case SendAbort =>
    case RejectLock =>
    case RejectDone =>
  }

  lemma AroundFrame(s: State, step: Step)
    requires Around(step) && Enabled(s, step)
    ensures var t := Apply(s, step);
            && t == s.(now := t.now, departed := t.departed, scheduler := t.scheduler, stored := t.stored,
                       notifying := t.notifying, closing := t.closing, owner := t.owner, lock := t.lock)
            && (step.RejectLock? || step.RejectDone? || t.lock == s.lock) && (s.closing ==> t.closing)
            && (step.RejectLock? ==> s.lock.Free? && t.lock.Rejecting?)
            && (step.RejectDone? ==> s.lock.Rejecting? && t.lock.Free?)
  {
    hide Apply, Enabled;
    if step.Tick? || step.Depart? || step.Notify? || step.Close? {
      SignalFrame(s, step);
    } else {
      OwnerFrame(s, step);
    }
  }

  /** Whatever happens, the configuration stays and no answer is taken back. */
  lemma ConfigStays(s: State, step: Step)
    requires Enabled(s, step)
    ensures Apply(s, step).cfg == s.cfg && s.books.answers <= Apply(s, step).books.answers
  {
    Kinds(step);
    if ByTask(step) {
      TaskFrame(s, step);
      hide Apply, Enabled;
    } else if Refuses(step) {
      RefusalFrame(s, step);
      hide Apply, Enabled;
    } else if Enters(step) {
      EntryFrame(s, step);
      hide Apply, Enabled;
    } else if ByScheduler(step) {
      SchedulerFrame(s, step);
      hide Apply, Enabled;
    } else if Around(step) {
      AroundFrame(s, step);
      hide Apply, Enabled;
    } else {
      hide RemoveAt, Release1, NextStreak, Stays, MayDrop, Chosen;
    }
  }
}
