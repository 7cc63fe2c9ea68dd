/** The gateway as a protocol: every caller inside `enqueue`, the scheduler task, the execution tasks, budget
    resizes, close and drop interleave one atomic step at a time (src/lib.rs, src/queue.rs, src/gateway.rs). */
module Gateway {
  import opened Wrappers
  import opened Budgets
  import opened Responses
  import opened Queueing

  datatype Settings = Settings(
    mode: Mode, limit: nat, capacity: nat, interactiveWait: nat, agentWait: nat, maxBody: nat)
  {
    function Wait(cls: Class): nat {
      if cls.Interactive? then interactiveWait else agentWait
    }
  }

  /** Who holds the queue lock, and how far it is. A caller first reads `closing`, then maintains the queues,
      takes a permit and pushes its job. */
  datatype Holder =
    | Free
    | Entered(caller: nat, key: Key)
    | Open(caller: nat, key: Key)
    | Holding(caller: nat, key: Key)
    | Scheduling
    | Rejecting

  /** After a pass the scheduler has released the lock but does not listen yet (`Leaving`); only then does it wait
      (`Parked`). `woken` is a notification already assigned to the parked scheduler. */
  datatype Scheduler =
    | Top
    | Pass
    | Leaving(timer: Option<nat>)
    | Parked(timer: Option<nat>, woken: bool)
    | Returned
    | Aborted

  /** How far the drop of the gateway value is. */
  datatype Owner = Alive | Flagged | AbortSent | Rejected

  datatype Handoff = Handoff(caller: nat, cls: Class, order: nat)

  /** What has happened so far; no step reads it. */
  datatype History = History(
    accepted: set<nat>, handoffs: seq<Handoff>, expired: multiset<nat>, refused: multiset<nat>, gone: multiset<nat>)

  /** The execution tasks not yet joined are those executing, those that dropped their permit and still owe
      their answer, and those finished. `stored` is the notification permit, `notifying` the callers between
      their push and their notification, `seen` those that have called so far. */
  datatype State = State(
    cfg: Settings, books: Books, streak: nat, nextOrder: nat,
    executing: seq<Job>, settling: seq<Answer>, finished: nat,
    lock: Holder, scheduler: Scheduler, stored: bool, notifying: set<nat>,
    closing: bool, owner: Owner, now: nat, departed: set<nat>, seen: set<nat>, history: History)
  {
    function Running(): nat {
      |executing| + |settling| + finished
    }

    function Queued(): nat {
      books.waiting.Size()
    }

    function Select(): Option<Class> {
      Chosen(cfg.mode, streak, books.waiting)
    }
  }

  datatype Step =
    | Tick(reading: nat)
    | Depart(callers: set<nat>)
    | RefuseEarly(caller: nat, response: Response)
    | Enter(caller: nat, key: Key)
    | SeeClosed
    | SeeOpen
    | Drop(removal: Removal)
    | Exhausted
    | Acquire
    | Full
    | Push
    | Notify(caller: nat)
    | Resize(key: Key, maximum: nat)
    | Close
    | Join
    | Lock
    | HandOff
    | FindNone
    | Leave
    | Park
    | WakeNotified
    | WakeJoin
    | WakeTimer
    | Complete(task: nat, execution: Execution)
    | Reply(task: nat)
    | Lose(task: nat)
    | Flag
    | SendAbort
    | Abort
    | RejectLock
    | RejectOne(cls: Class)
    | RejectDone

  function Init(cfg: Settings, maxima: map<Key, nat>): State {
    State(cfg, Books(Waiting([], []), map k | k in maxima :: Fresh(maxima[k]), []), 0, 0,
          [], [], 0, Free, Top, false, {}, false, Alive, 0, {}, {},
          History({}, [], multiset{}, multiset{}, multiset{}))
  }

  // ---------- Steps ----------

  predicate Enabled(s: State, step: Step) {
    match step
    case Tick(reading) => s.now <= reading
    case Depart(_) => true
    case RefuseEarly(caller, response) => caller !in s.seen && RefusedEarly(response)
    case Enter(caller, key) => caller !in s.seen && key in s.books.ledger && s.lock.Free?
    case SeeClosed => s.lock.Entered? && s.closing
    case SeeOpen => s.lock.Entered? && !s.closing
    case Drop(r) => (s.lock.Open? || s.lock.Scheduling?) && Removable(s.books, r) && MayDrop(s, r)
    case Exhausted => s.lock.Open? && s.lock.key in s.books.ledger && !Admits(s.books.ledger[s.lock.key])
    case Acquire => s.lock.Open? && s.lock.key in s.books.ledger && Admits(s.books.ledger[s.lock.key])
    case Full => s.lock.Holding? && |s.books.waiting.Of(s.lock.key.cls)| >= s.cfg.capacity
    case Push => s.lock.Holding? && |s.books.waiting.Of(s.lock.key.cls)| < s.cfg.capacity
    case Notify(caller) => caller in s.notifying
    case Resize(key, maximum) => key in s.books.ledger && 1 <= maximum <= 1000
    case Close => s.lock.Free?
    case Join => s.scheduler.Top? && s.finished > 0
    case Lock => s.scheduler.Top? && s.lock.Free?
    case HandOff =>
      && s.lock.Scheduling? && s.Running() < s.cfg.limit && s.Select().Some?
      && Stays(s.books.waiting.Of(s.Select().value)[0], s.departed, s.now)
    case FindNone => s.lock.Scheduling? && s.Running() < s.cfg.limit && s.Select().None?
    case Leave => s.lock.Scheduling? && (s.Running() >= s.cfg.limit || (s.Select().None? && s.streak == 0))
    case Park => s.scheduler.Leaving?
    case WakeNotified => s.scheduler.Parked? && s.scheduler.woken
    case WakeJoin => s.scheduler.Parked? && s.finished > 0
    case WakeTimer => s.scheduler.Parked? && s.scheduler.timer.Some? && s.scheduler.timer.value <= s.now
    case Complete(i, _) => i < |s.executing|
    case Reply(i) => i < |s.settling|
    case Lose(i) => i < |s.executing|
    case Flag => s.owner.Alive?
    case SendAbort => s.owner.Flagged?
    case Abort => (s.owner.AbortSent? || s.owner.Rejected?) && (s.scheduler.Top? || s.scheduler.Parked?)
    case RejectLock => s.owner.AbortSent? && s.lock.Free?
    case RejectOne(cls) => s.lock.Rejecting? && s.books.waiting.Of(cls) != []
    case RejectDone => s.lock.Rejecting? && s.Queued() == 0
  }

  /** A maintained or selected job leaves silently only if its caller left, and expires only at its deadline. */
  predicate MayDrop(s: State, r: Removal) {
    match r.reason
    case Gone => r.job.reply in s.departed
    case Expired => r.job.Deadline() <= s.now
    case Refused => false
  }

  function Answered(s: State, caller: nat, response: Response): State {
    s.(books := s.books.(answers := s.books.answers + [Answer(caller, response)]))
  }

  /** The lock is released and its holder answered. */
  function TurnedAway(s: State, response: Response): State
    requires s.lock.Entered? || s.lock.Open? || s.lock.Holding?
  {
    Answered(s, s.lock.caller, response).(lock := Free)
  }

  /** A notification goes to the parked scheduler, or else is stored; at most one is. */
  function Notified(s: State): State {
    if s.scheduler.Parked? && !s.scheduler.woken then s.(scheduler := s.scheduler.(woken := true))
    else s.(stored := true)
  }

  /** The scheduler goes on. If another event than the notification assigned to it woke it, the notification
      is stored again. */
  function Woken(s: State): State
    requires s.scheduler.Parked?
  {
    s.(scheduler := Top, stored := s.stored || s.scheduler.woken)
  }

  function Removed(s: State, r: Removal): State
    requires Removable(s.books, r)
  {
    var h := s.history;
    var c := multiset{r.job.reply};
    s.(books := Remove(s.books, r),
       history := match r.reason
                  case Gone => h.(gone := h.gone + c)
                  case Expired => h.(expired := h.expired + c)
                  case Refused => h.(refused := h.refused + c))
  }

  function Admitted(s: State): Job
    requires s.lock.Holding?
  {
    Job(s.lock.caller, s.lock.key, s.now, s.cfg.Wait(s.lock.key.cls), s.nextOrder)
  }

  function Pushed(s: State): State
    requires s.lock.Holding?
  {
    var w, cls := s.books.waiting, s.lock.key.cls;
    s.(books := s.books.(waiting := w.With(cls, w.Of(cls) + [Admitted(s)])),
       nextOrder := s.nextOrder + 1, lock := Free,
       notifying := s.notifying + {s.lock.caller},
       history := s.history.(accepted := s.history.accepted + {s.lock.caller}))
  }

  function HandedOff(s: State, cls: Class): State
    requires s.books.waiting.Of(cls) != []
  {
    var job := s.books.waiting.Of(cls)[0];
    s.(books := Popped(s.books, cls), executing := s.executing + [job],
       streak := NextStreak(s.cfg.mode, s.streak, s.books.waiting, cls),
       history := s.history.(handoffs := s.history.handoffs + [Handoff(job.reply, cls, job.order)]))
  }

  /** The pass ends, because every slot is taken or a selection found nothing and reset the streak. */
  function PassEnded(s: State): State {
    var t := s.(lock := Free);
    if s.closing && s.Running() == 0 && s.Queued() == 0 then t.(scheduler := Returned)
    else t.(scheduler := Leaving(NextDeadline(s.books.waiting)))
  }

  /** An executing task drops its permit. */
  function PermitDropped(s: State, i: nat): State
    requires i < |s.executing|
  {
    s.(executing := RemoveAt(s.executing, i),
       books := s.books.(ledger := Release1(s.books.ledger, s.executing[i].permit)))
  }

  function Apply(s: State, step: Step): State
    requires Enabled(s, step)
  {
    match step
    case Tick(reading) => s.(now := reading)
    case Depart(callers) => s.(departed := s.departed + callers)
    case RefuseEarly(caller, response) =>
      Answered(s, caller, response).(seen := s.seen + {caller})
    case Enter(caller, key) =>
      s.(lock := Entered(caller, key), seen := s.seen + {caller})
    case SeeClosed => TurnedAway(s, GatewayClosed())
    case SeeOpen => s.(lock := Open(s.lock.caller, s.lock.key))
    case Drop(r) => Removed(s, r)
    case Exhausted => TurnedAway(s, Overloaded("budget_exhausted", "1"))
    case Acquire =>
      s.(lock := Holding(s.lock.caller, s.lock.key),
         books := s.books.(ledger := Acquire1(s.books.ledger, s.lock.key)))
    case Full =>
      TurnedAway(s.(nextOrder := s.nextOrder + 1,
                    books := s.books.(ledger := Release1(s.books.ledger, s.lock.key))),
                 Overloaded("queue_full", "1"))
    case Push => Pushed(s)
    case Notify(caller) => Notified(s.(notifying := s.notifying - {caller}))
    case Resize(key, maximum) =>
      s.(books := s.books.(ledger := s.books.ledger[key := Resized(s.books.ledger[key], maximum)]))
    case Close => Notified(s.(closing := true))
    case Join => s.(finished := s.finished - 1)
    case Lock => s.(lock := Scheduling, scheduler := Pass)
    case HandOff => HandedOff(s, s.Select().value)
    case FindNone => s.(streak := 0)
    case Leave => PassEnded(s)
    case Park => s.(scheduler := Parked(s.scheduler.timer, s.stored), stored := false)
    case WakeNotified => s.(scheduler := Top)
    case WakeJoin => Woken(s).(finished := s.finished - 1)
    case WakeTimer => Woken(s)
    case Complete(i, execution) =>
      PermitDropped(s, i).(settling := s.settling + [Answer(s.executing[i].reply, Execute(execution, s.cfg.maxBody))])
    case Reply(i) =>
      Answered(s, s.settling[i].caller, s.settling[i].response)
        .(settling := RemoveAt(s.settling, i), finished := s.finished + 1)
    case Lose(i) =>
      Answered(PermitDropped(s, i), s.executing[i].reply, LostReply()).(finished := s.finished + 1)
    case Flag => s.(closing := true, owner := Flagged)
    case SendAbort => s.(owner := AbortSent)
    case Abort => s.(scheduler := Aborted)
    case RejectLock => s.(lock := Rejecting)
    case RejectOne(cls) => Removed(s, Removal(cls, 0, s.books.waiting.Of(cls)[0], Refused))
    case RejectDone => s.(lock := Free, owner := Rejected)
  }

  // ---------- Runs ----------

  ghost predicate IsRun(s: State, steps: seq<Step>)
    decreases steps
  {
    steps != [] ==> Enabled(s, steps[0]) && IsRun(Apply(s, steps[0]), steps[1..])
  }

  ghost function After(s: State, steps: seq<Step>): State
    requires IsRun(s, steps)
    decreases steps
  {
    if steps == [] then s else After(Apply(s, steps[0]), steps[1..])
  }
}
