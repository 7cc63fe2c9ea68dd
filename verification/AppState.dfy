/** The critical sections of the queue lock, in place (src/lib.rs, src/gateway.rs): a submission, a scheduler pass and a
    drop, with other tasks going on in between. Each is proved to be a run of the gateway protocol, so every guarantee
    of the protocol is one of this code. */
module AppStates {
  import opened Wrappers
  import opened Budgets
  import opened Responses
  import opened Queueing
  import opened QueueClass
  import opened Gateway
  import opened GatewayInvariants
  import opened GatewayInterference
  import opened GatewayEffects
  import opened GatewayTheorems

  // ---------- Removals as protocol steps ----------

  function Dropped(h: History, rs: seq<Removal>): History
    decreases rs
  {
    if rs == [] then h else
    var c := multiset{rs[0].job.reply};
    Dropped(match rs[0].reason
            case Gone => h.(gone := h.gone + c)
            case Expired => h.(expired := h.expired + c)
            case Refused => h.(refused := h.refused + c), rs[1..])
  }

  function Drops(rs: seq<Removal>): seq<Step> {
    seq(|rs|, i requires 0 <= i < |rs| => Drop(rs[i]))
  }

  lemma {:induction false} ActsOfRemovals(steps: seq<Step>)
    requires forall i | 0 <= i < |steps| :: TakesOut(steps[i])
    ensures Acts(steps) == []
  {
    if steps != [] {
      ActsOfRemovals(steps[1..]);
    }
  }

  /** One step of a run, and what the list of removals it began does next. */
  lemma RemoveFirst(s: State, rs: seq<Removal>)
    requires rs != [] && AllRemovable(s.books, rs)
    ensures Removable(s.books, rs[0]) && AllRemovable(Removed(s, rs[0]).books, rs[1..])
    ensures RemoveAll(s.books, rs) == RemoveAll(Removed(s, rs[0]).books, rs[1..])
    ensures Dropped(s.history, rs) == Dropped(Removed(s, rs[0]).history, rs[1..])
  {
    hide Remove;
  }

  /** A warranted list of removals is a run of drops. */
  lemma {:induction false} DropsRun(s: State, rs: seq<Removal>)
    requires s.lock.Open? || s.lock.Scheduling?
    requires AllRemovable(s.books, rs) && forall r | r in rs :: MayDrop(s, r)
    ensures Reaches(s, Drops(rs), s.(books := RemoveAll(s.books, rs), history := Dropped(s.history, rs)))
    ensures Acts(Drops(rs)) == []
    decreases rs
  {
    hide Acts, Remove;
    ActsOfRemovals(Drops(rs));
    if rs != [] {
      hide Removable, MayDrop, Reaches, Apply, Enabled;
      RemoveFirst(s, rs);
      var t := Removed(s, rs[0]);
      assert rs[0] in rs;
      DropStep(s, rs[0]);
      assert Drops(rs)[1..] == Drops(rs[1..]);
      forall r | r in rs[1..] ensures MayDrop(t, r) {
        assert r in rs;
        MayDropStill(s, rs[0], r);
      }
      DropsRun(t, rs[1..]);
      ReachesHead(s, Drops(rs), s.(books := RemoveAll(s.books, rs), history := Dropped(s.history, rs)));
    }
  }

  lemma DropStep(s: State, r: Removal)
    requires (s.lock.Open? || s.lock.Scheduling?) && Removable(s.books, r) && MayDrop(s, r)
    ensures Enabled(s, Drop(r)) && Apply(s, Drop(r)) == Removed(s, r)
  {
    hide Removed;
  }

  lemma MayDropStill(s: State, r: Removal, other: Removal)
    requires Removable(s.books, r) && MayDrop(s, other)
    ensures MayDrop(Removed(s, r), other)
  {
    hide Remove;
  }

  function Rejections(rs: seq<Removal>): seq<Step> {
    seq(|rs|, i requires 0 <= i < |rs| => RejectOne(rs[i].cls))
  }

  lemma RejectStep(s: State, r: Removal)
    requires s.lock.Rejecting? && Removable(s.books, r) && r.reason == Refused && r.index == 0
    ensures Enabled(s, RejectOne(r.cls)) && Apply(s, RejectOne(r.cls)) == Removed(s, r)
  {
    hide Removed;
  }

  /** Draining from the front is a run of rejections. */
  lemma {:induction false} RejectionsRun(s: State, rs: seq<Removal>)
    requires s.lock.Rejecting? && AllRemovable(s.books, rs)
    requires forall r | r in rs :: r.reason == Refused && r.index == 0
    ensures Reaches(s, Rejections(rs), s.(books := RemoveAll(s.books, rs), history := Dropped(s.history, rs)))
    ensures Acts(Rejections(rs)) == []
    decreases rs
  {
    hide Acts, Remove;
    ActsOfRemovals(Rejections(rs));
    if rs != [] {
      hide Removable, Reaches, Apply, Enabled;
      RemoveFirst(s, rs);
      assert rs[0] in rs;
      RejectStep(s, rs[0]);
      assert Rejections(rs)[1..] == Rejections(rs[1..]);
      RejectionsRun(Removed(s, rs[0]), rs[1..]);
      ReachesHead(s, Rejections(rs), s.(books := RemoveAll(s.books, rs), history := Dropped(s.history, rs)));
    }
  }

  /** Two runs in a row, with what the holder of the lock did in both. */
  lemma Extend(s: State, steps: seq<Step>, t: State, more: seq<Step>, u: State) returns (all: seq<Step>)
    requires Reaches(s, steps, t) && Reaches(t, more, u)
    ensures Reaches(s, all, u) && Acts(all) == Acts(steps) + Acts(more)
  {
    ReachesOn(s, steps, t, more, u);
    ActsConcat(steps, more);
    all := steps + more;
  }

  /** What a critical section observed of the clock and of the departures, and then removed. */
  function Maintained(s: State, departed: set<nat>, now: nat, rs: seq<Removal>): State
    requires AllRemovable(s.books, rs)
  {
    s.(departed := departed, now := now,
       books := RemoveAll(s.books, rs), history := Dropped(s.history, rs))
  }

  lemma MaintainedRun(s: State, departed: set<nat>, now: nat, rs: seq<Removal>) returns (steps: seq<Step>)
    requires s.lock.Open? || s.lock.Scheduling?
    requires s.departed <= departed && s.now <= now && AllRemovable(s.books, rs)
    requires forall r | r in rs :: Warranted(r, s.departed, departed, now)
    ensures Reaches(s, steps, Maintained(s, departed, now, rs)) && Acts(steps) == []
  {
    assert s.departed + departed == departed;
    var t := Apply(s, Depart(departed));
    var u := Apply(t, Tick(now));
    ReachesStep(s, Depart(departed));
    ReachesStep(t, Tick(now));
    DropsRun(u, rs);
    hide Reaches, Apply, Enabled, AllRemovable, RemoveAll, Dropped;
    steps := Extend(s, [Depart(departed)], t, [Tick(now)], u);
    steps := Extend(s, steps, u, Drops(rs), Maintained(s, departed, now, rs));
  }

  lemma InvCovers(s: State)
    requires Inv(s)
    ensures Covered(s.books) && s.streak <= 3
    ensures s.lock.Entered? || s.lock.Open? || s.lock.Holding? ==> s.lock.key in s.books.ledger
  {
    ConservedIsCovered(s);
  }

  lemma ConservedIsCovered(s: State)
    requires Conserved(s)
    ensures Covered(s.books)
  {
    hide Held;
    assert forall k | k in s.books.ledger :: s.books.ledger[k].outstanding == PermitsOut(s, k);
  }

  /** A run, and then one step of the holder of the lock. */
  lemma Act(s: State, steps: seq<Step>, t: State, step: Step) returns (all: seq<Step>)
    requires Reaches(s, steps, t) && Enabled(t, step)
    requires !Foreign(step) && !TakesOut(step)
    ensures Reaches(s, all, Apply(t, step)) && Acts(all) == Acts(steps) + [step]
  {
    ReachesStep(t, step);
    all := Extend(s, steps, t, [step], Apply(t, step));
  }

  lemma ActsNone(step: Step)
    requires Foreign(step)
    ensures Acts([step]) == []
  {
  }

  lemma ActsEmpty()
    ensures Acts([]) == []
  {
  }

  lemma InvPass(s: State)
    requires Inv(s) && s.lock.Scheduling?
    ensures s.scheduler.Pass?
  {
  }

  lemma InvHolding(s: State)
    requires Inv(s) && s.lock.Holding?
    ensures s.lock.key in s.books.ledger && s.books.ledger[s.lock.key].outstanding > 0
  {
  }

  // ---------- The critical sections ----------

  /** How a submission ends under the lock. */
  datatype Outcome = Closed | NoPermit | NoRoom | Accepted(order: nat, admitted: Snapshot)

  function Refusal(outcome: Outcome): Response
    requires !outcome.Accepted?
  {
    match outcome
    case Closed => GatewayClosed()
    case NoPermit => Overloaded("budget_exhausted", "1")
    case NoRoom => Overloaded("queue_full", "1")
  }

  /** What the caller does under the lock besides maintenance. */
  function Course(outcome: Outcome): seq<Step> {
    match outcome
    case Closed => [SeeClosed]
    case NoPermit => [SeeOpen, Exhausted]
    case NoRoom => [SeeOpen, Acquire, Full]
    case Accepted(_, _) => [SeeOpen, Acquire, Push]
  }

  /** What a scheduler does in a pass besides maintenance. */
  function PassCourse(handed: nat, foundNone: bool): seq<Step> {
    seq(handed, _ => HandOff) + if foundNone then [FindNone] else []
  }

  lemma CourseStarts()
    ensures PassCourse(0, false) == []
  {
  }

  lemma CourseGrows(handed: nat, filling: bool)
    ensures PassCourse(handed, false) + [if filling then HandOff else FindNone] ==
            PassCourse(if filling then handed + 1 else handed, !filling)
  {
  }

  // ---------- The steps of the holder of the lock ----------

  lemma LookStep(s: State)
    requires s.lock.Entered?
    ensures s.closing ==> Enabled(s, SeeClosed) && Apply(s, SeeClosed) == TurnedAway(s, GatewayClosed())
    ensures !s.closing ==> Enabled(s, SeeOpen) && Apply(s, SeeOpen) == s.(lock := Open(s.lock.caller, s.lock.key))
  {
  }

  lemma TakeStep(s: State)
    requires s.lock.Open? && s.lock.key in s.books.ledger
    ensures !Admits(s.books.ledger[s.lock.key]) ==>
              Enabled(s, Exhausted) && Apply(s, Exhausted) == TurnedAway(s, Refusal(NoPermit))
    ensures Admits(s.books.ledger[s.lock.key]) ==>
              && Enabled(s, Acquire)
              && Apply(s, Acquire) == s.(lock := Holding(s.lock.caller, s.lock.key),
                                         books := s.books.(ledger := Acquire1(s.books.ledger, s.lock.key)))
  {
  }

  lemma FullStep(s: State)
    requires s.lock.Holding? && |s.books.waiting.Of(s.lock.key.cls)| >= s.cfg.capacity
    ensures Enabled(s, Full)
    ensures Apply(s, Full) == TurnedAway(s.(nextOrder := s.nextOrder + 1,
                                            books := s.books.(ledger := Release1(s.books.ledger, s.lock.key))),
                                         Refusal(NoRoom))
  {
  }

  lemma PushStep(s: State, now: nat)
    requires s.lock.Holding? && |s.books.waiting.Of(s.lock.key.cls)| < s.cfg.capacity && s.now <= now
    ensures Enabled(s, Tick(now)) && Apply(s, Tick(now)) == s.(now := now)
    ensures Enabled(s.(now := now), Push) && Apply(s.(now := now), Push) == Pushed(s.(now := now))
  {
  }

  lemma HandOffStep(s: State, cls: Class)
    requires s.lock.Scheduling? && s.Running() < s.cfg.limit && s.Select() == Some(cls)
    requires Stays(s.books.waiting.Of(cls)[0], s.departed, s.now)
    ensures Enabled(s, HandOff) && Apply(s, HandOff) == HandedOff(s, cls)
  {
  }

  lemma FindNoneStep(s: State)
    requires s.lock.Scheduling? && s.Running() < s.cfg.limit && s.Select() == None
    ensures Enabled(s, FindNone) && Apply(s, FindNone) == s.(streak := 0)
  {
  }

  lemma LeaveStep(s: State)
    requires s.lock.Scheduling? && (s.Running() >= s.cfg.limit || (s.Queued() == 0 && s.streak == 0))
    ensures Enabled(s, Leave) && Apply(s, Leave) == PassEnded(s)
  {
  }

  lemma RejectedStep(s: State)
    requires s.lock.Rejecting? && s.Queued() == 0
    ensures Enabled(s, RejectDone) && Apply(s, RejectDone) == s.(lock := Free, owner := Rejected)
  {
  }

  // ---------- Histories decide nothing ----------

  /** The same step can be taken whatever the history, and its effect differs in the history alone. */
  predicate Indifferent(s: State, h: History, step: Step) {
    && (Enabled(s.(history := h), step) <==> Enabled(s, step))
    && (Enabled(s, step) && Enabled(s.(history := h), step) ==>
          Apply(s.(history := h), step) == Apply(s, step).(history := Apply(s.(history := h), step).history))
  }

  lemma RemovalIndifferent(s: State, h: History, step: Step)
    requires TakesOut(step)
    ensures Indifferent(s, h, step)
  {
    hide RemoveAt, Stays, Release1;
  }

  lemma JobIndifferent(s: State, h: History, step: Step)
    requires step.Push? || step.HandOff?
    ensures Indifferent(s, h, step)
  {
    hide NextStreak, Stays;
  }

  lemma CompletionIndifferent(s: State, h: History, step: Step)
    requires step.Complete?
    ensures Indifferent(s, h, step)
  {
    hide RemoveAt, Execute, Release1;
  }

  lemma ReplyIndifferent(s: State, h: History, step: Step)
    requires step.Reply? || step.Lose?
    ensures Indifferent(s, h, step)
  {
    hide RemoveAt, Release1, LostReply;
  }

  lemma CallerIndifferent(s: State, h: History, step: Step)
    requires Refuses(step)
    ensures Indifferent(s, h, step)
  {
    hide RefusedEarly, Release1, Admits, Overloaded, GatewayClosed;
  }

  lemma EntryIndifferent(s: State, h: History, step: Step)
    requires Enters(step)
    ensures Indifferent(s, h, step)
  {
    hide Acquire1, Resized, Admits;
  }

  lemma PassIndifferent(s: State, h: History, step: Step)
    requires step.Lock? || step.FindNone? || step.Leave?
    ensures Indifferent(s, h, step)
  {
    hide NextDeadline, Chosen;
  }

  lemma WakeIndifferent(s: State, h: History, step: Step)
    requires step.WakeNotified? || step.WakeTimer?
    ensures Indifferent(s, h, step)
  {
  }

  lemma JoinIndifferent(s: State, h: History, step: Step)
    requires step.Join? || step.WakeJoin?
    ensures Indifferent(s, h, step)
  {
  }

  lemma WaitIndifferent(s: State, h: History, step: Step)
    requires step.Park? || step.Abort? || step.Tick? || step.Depart?
    ensures Indifferent(s, h, step)
  {
  }

  lemma NoticeIndifferent(s: State, h: History, step: Step)
    requires step.Notify? || step.Close?
    ensures Indifferent(s, h, step)
  {
  }

  lemma OwnerIndifferent(s: State, h: History, step: Step)
    requires step.Flag? || step.SendAbort?
    ensures Indifferent(s, h, step)
  {
  }

  lemma RejectionIndifferent(s: State, h: History, step: Step)
    requires step.RejectLock? || step.RejectDone?
    ensures Indifferent(s, h, step)
  {
  }

  lemma HistoryIsFree(s: State, h: History, step: Step)
    ensures Indifferent(s, h, step)
  {
    hide Indifferent;
    Kinds(step);
    if TakesOut(step) {
      RemovalIndifferent(s, h, step);
    } else if MovesJob(step) {
      JobIndifferent(s, h, step);
    } else if step.Complete? {
      CompletionIndifferent(s, h, step);
    } else if ByTask(step) {
      ReplyIndifferent(s, h, step);
    } else if Refuses(step) {
      CallerIndifferent(s, h, step);
    } else if Enters(step) {
      EntryIndifferent(s, h, step);
    } else if step.Lock? || step.FindNone? || step.Leave? {
      PassIndifferent(s, h, step);
    } else if step.Park? || step.Abort? || step.Tick? || step.Depart? {
      WaitIndifferent(s, h, step);
    } else if step.Join? || step.WakeJoin? {
      JoinIndifferent(s, h, step);
    } else if ByScheduler(step) {
      WakeIndifferent(s, h, step);
    } else if step.Notify? || step.Close? {
      NoticeIndifferent(s, h, step);
    } else if step.Flag? || step.SendAbort? {
      OwnerIndifferent(s, h, step);
    } else {
      RejectionIndifferent(s, h, step);
    }
  }

  class AppState {
    const cfg: Settings
    const queues: Queues
    const world: World
    var closing: bool
    /** The length of the set of execution tasks not yet joined. */
    var running: nat
    /** Where the lock, the scheduler, the tasks, the callers and the owner are; its other parts are not used. */
    var rest: State
    ghost var past: History

    function Present(): State
      reads this, queues, world
    {
      rest.(cfg := cfg, books := queues.Contents(world), streak := queues.streak, nextOrder := queues.nextOrder,
            closing := closing, now := world.now, departed := world.departed)
    }

    ghost function Protocol(): State
      reads this, queues, world
    {
      Present().(history := past)
    }

    ghost predicate Valid()
      reads this, queues, world
    {
      queues.mode == cfg.mode && running == rest.Running() && Inv(Protocol())
    }

    constructor (cfg: Settings, queues: Queues, world: World, maxima: map<Key, nat>)
      requires cfg.limit >= 1 && queues.mode == cfg.mode
      requires queues.interactive == queues.agents == [] && queues.streak == queues.nextOrder == 0
      requires world.now == 0 && world.departed == {} && world.answers == []
      requires world.ledger == map k | k in maxima :: Fresh(maxima[k])
      ensures this.cfg == cfg && this.queues == queues && this.world == world
      ensures Valid() && Protocol() == Init(cfg, maxima)
    {
      this.cfg, this.queues, this.world, closing, running := cfg, queues, world, false, 0;
      rest, past := Init(cfg, maxima), Init(cfg, maxima).history;
      new;
      InitInv(cfg, maxima);
    }

    // ---------- Other tasks ----------

    /** Any step of the protocol, by whichever task takes it. */
    method Elsewhere(step: Step)
      requires Valid() && Enabled(Protocol(), step)
      modifies this, queues, world
      ensures Valid() && Protocol() == Apply(old(Protocol()), step)
    {
      hide Inv, Apply, Enabled;
      ghost var before := Protocol();
      StepInv(before, step);
      ConfigStays(before, step);
      HistoryIsFree(before, Present().history, step);
      assert before.(history := Present().history) == Present();
      var t := Apply(Present(), step);
      queues.interactive, queues.agents := t.books.waiting.interactive, t.books.waiting.agents;
      queues.streak, queues.nextOrder := t.streak, t.nextOrder;
      world.ledger, world.answers, world.now, world.departed := t.books.ledger, t.books.answers, t.now, t.departed;
      closing, running, rest, past := t.closing, t.Running(), t, Apply(before, step).history;
    }

    /** A step of another task, if it is one and can be taken. */
    method Other(step: Step) returns (ghost steps: seq<Step>)
      requires Valid()
      modifies this, queues, world
      ensures Valid() && Reaches(old(Protocol()), steps, Protocol()) && Acts(steps) == []
      ensures Undisturbed(old(Protocol()), Protocol())
    {
      hide Inv, Reaches, Apply, Enabled;
      ghost var before := Protocol();
      steps := [];
      if Foreign(step) && Enabled(Present(), step) {
        HistoryIsFree(Present(), past, step);
        ReachesStep(before, step);
        ForeignUndisturbed(before, step);
        Elsewhere(step);
        steps := [step];
      } else {
        ReachesNone(before);
      }
    }

    /** Whatever other tasks do while this one holds the lock, or awaits it. */
    method Others() returns (ghost steps: seq<Step>)
      requires Valid()
      modifies this, queues, world
      ensures Valid() && Reaches(old(Protocol()), steps, Protocol()) && Acts(steps) == []
      ensures Undisturbed(old(Protocol()), Protocol())
    {
      hide Reaches, Inv;
      ghost var s := Protocol();
      steps := [];
      ReachesNone(s);
      var n: nat :| true;
      for i := 0 to n
        invariant Valid() && Reaches(s, steps, Protocol()) && Acts(steps) == []
        invariant Undisturbed(s, Protocol())
      {
        hide Undisturbed;
        ghost var before := Protocol();
        var step: Step := *;
        ghost var more := Other(step);
        UndisturbedOn(s, before, Protocol());
        steps := Extend(s, steps, before, more, Protocol());
      }
    }

    // ---------- Submission ----------

    /** Read the closing flag under the lock. */
    method Look(caller: nat, key: Key) returns (open: bool)
      requires Valid() && rest.lock == Entered(caller, key)
      modifies this`rest, world`answers
      ensures Valid() && open == !closing && Enabled(old(Protocol()), if open then SeeOpen else SeeClosed)
      ensures Protocol() == Apply(old(Protocol()), if open then SeeOpen else SeeClosed)
      ensures rest.lock == if open then Open(caller, key) else Free
      ensures !open ==> world.answers == old(world.answers) + [Answer(caller, Refusal(Closed))]
    {
      hide Inv, Apply, Enabled;
      ghost var before := Protocol();
      LookStep(before);
      open := !closing;
      if open {
        rest := rest.(lock := Open(caller, key));
      } else {
        world.Send(caller, Refusal(Closed));
        rest := rest.(lock := Free);
      }
      StepInv(before, if open then SeeOpen else SeeClosed);
    }

    /** Maintenance under the lock, by a caller or by the scheduler. */
    method MaintainLocked() returns (ghost steps: seq<Step>)
      requires Valid() && (rest.lock.Open? || rest.lock.Scheduling?)
      modifies this`past, queues`interactive, queues`agents, world
      ensures Valid() && Reaches(old(Protocol()), steps, Protocol()) && Acts(steps) == []
    {
      hide Inv, Reaches, AllRemovable, RemoveAll, Dropped, Warranted, AllStay, Survivors, Distinct, Covered;
      ghost var before := Protocol();
      InvCovers(before);
      var reading := world.Now();
      ghost var rs, gone;
      rs, gone := queues.Maintain(reading, world);
      steps := MaintainedRun(before, world.departed, world.now, rs);
      past := Dropped(past, rs);
      assert Protocol() == Maintained(before, world.departed, world.now, rs);
      ReachesInv(before, steps, Protocol());
    }

    /** Take a permit, or turn the caller away. */
    method Take(caller: nat, key: Key) returns (admitted: Option<Snapshot>)
      requires Valid() && rest.lock == Open(caller, key)
      modifies this`rest, world
      ensures Valid() && Enabled(old(Protocol()), if admitted.Some? then Acquire else Exhausted)
      ensures Protocol() == Apply(old(Protocol()), if admitted.Some? then Acquire else Exhausted)
      ensures rest.lock == if admitted.Some? then Holding(caller, key) else Free
      ensures admitted.Some? ==> admitted.value.outstanding <= admitted.value.maximum
      ensures admitted.None? ==> world.answers == old(world.answers) + [Answer(caller, Refusal(NoPermit))]
    {
      hide Inv, Apply, Enabled, Refusal, Covered;
      ghost var before := Protocol();
      InvCovers(before);
      TakeStep(before);
      admitted := world.TryAcquire(key);
      if admitted.Some? {
        rest := rest.(lock := Holding(caller, key));
      } else {
        world.Send(caller, Refusal(NoPermit));
        rest := rest.(lock := Free);
      }
      StepInv(before, if admitted.Some? then Acquire else Exhausted);
    }

    /** The queue is full: give the permit back and turn the caller away. The admission number is spent. */
    method TurnAway(caller: nat, key: Key, ghost before: State) returns (ghost steps: seq<Step>)
      requires Inv(before) && before.lock == Holding(caller, key) && queues.mode == cfg.mode
      requires running == before.Running() && rest.Running() == running
      requires Protocol() == before.(nextOrder := before.nextOrder + 1)
      requires |before.books.waiting.Of(key.cls)| >= cfg.capacity
      modifies this`rest, world
      ensures Valid() && rest.lock.Free? && Reaches(before, steps, Protocol()) && Acts(steps) == [Full]
      ensures world.answers == old(world.answers) + [Answer(caller, Refusal(NoRoom))]
    {
      hide Inv, Reaches, Apply, Enabled, Acts, Refusal;
      InvHolding(before);
      world.Release(key);
      world.Send(caller, Refusal(NoRoom));
      rest := rest.(lock := Free);
      FullStep(before);
      ReachesNone(before);
      ActsEmpty();
      steps := Act(before, [], before, Full);
      ReachesInv(before, steps, Protocol());
    }

    /** There is room: push the job, with its moment of acceptance. */
    method Enqueue(caller: nat, key: Key, ghost before: State) returns (ghost steps: seq<Step>)
      requires Inv(before) && before.lock == Holding(caller, key) && queues.mode == cfg.mode
      requires running == before.Running() && rest.Running() == running
      requires Protocol() == before.(nextOrder := before.nextOrder + 1)
      requires |before.books.waiting.Of(key.cls)| < cfg.capacity
      modifies this`rest, this`past, queues`interactive, queues`agents, world`now
      ensures Valid() && rest.lock.Free? && Reaches(before, steps, Protocol()) && Acts(steps) == [Push]
      ensures queues.Queued() == old(queues.Queued()).With(key.cls, old(queues.Queued().Of(key.cls))
                + [Job(caller, key, world.now, cfg.Wait(key.cls), before.nextOrder)])
    {
      hide Inv, Reaches, Apply, Enabled, Acts;
      var order := queues.nextOrder - 1;
      var acceptedAt := world.Now();
      PushStep(before, acceptedAt);
      ghost var read := before.(now := acceptedAt);
      queues.PushBack(key.cls, Job(caller, key, acceptedAt, cfg.Wait(key.cls), order));
      rest := rest.(lock := Free, notifying := rest.notifying + {caller});
      past := Pushed(read).history;
      assert Protocol() == Pushed(read);
      ReachesStep(before, Tick(acceptedAt));
      ActsNone(Tick(acceptedAt));
      steps := Act(before, [Tick(acceptedAt)], read, Push);
      ReachesInv(before, steps, Protocol());
    }

    /** Take an admission number; a full queue then gives the permit back, and otherwise the job is pushed. No other
        task can see the number in between. */
    method Place(caller: nat, key: Key) returns (order: nat, accepted: bool, ghost steps: seq<Step>)
      requires Valid() && rest.lock == Holding(caller, key)
      modifies this`rest, this`past, queues, world
      ensures Valid() && rest.lock.Free? && Reaches(old(Protocol()), steps, Protocol())
      ensures Acts(steps) == [if accepted then Push else Full]
      ensures order == old(queues.nextOrder) && queues.nextOrder == order + 1
      ensures accepted <==> |old(queues.Queued().Of(key.cls))| < cfg.capacity
      ensures !accepted ==> world.answers == old(world.answers) + [Answer(caller, Refusal(NoRoom))]
      ensures accepted ==>
                queues.Queued() == old(queues.Queued()).With(key.cls, old(queues.Queued().Of(key.cls))
                  + [Job(caller, key, world.now, cfg.Wait(key.cls), order)])
    {
      hide Inv, Reaches, Acts, Refusal;
      ghost var before := Protocol();
      order := queues.TakeOrder();
      var waiting := if key.cls.Agent? then |queues.agents| else |queues.interactive|;
      accepted := waiting < cfg.capacity;
      if accepted {
        steps := Enqueue(caller, key, before);
      } else {
        steps := TurnAway(caller, key, before);
      }
    }

    /** Maintenance while other tasks go on. */
    method MaintainAmid() returns (ghost steps: seq<Step>)
      requires Valid() && (rest.lock.Open? || rest.lock.Scheduling?)
      modifies this, queues, world
      ensures Valid() && Reaches(old(Protocol()), steps, Protocol()) && Acts(steps) == []
      ensures rest.lock == old(rest.lock) && queues.nextOrder == old(queues.nextOrder)
      ensures old(rest.scheduler).Pass? ==> rest.scheduler.Pass? && running == old(running)
    {
      hide Inv, Reaches, Acts;
      ghost var s := Protocol();
      steps := Others();
      ghost var t := Protocol();
      ghost var more := MaintainLocked();
      steps := Extend(s, steps, t, more, Protocol());
      t := Protocol();
      more := Others();
      steps := Extend(s, steps, t, more, Protocol());
    }

    /** Number, capacity and push of a caller with a permit, while other tasks go on. */
    method PlaceAmid(caller: nat, key: Key, admitted: Snapshot) returns (outcome: Outcome, ghost steps: seq<Step>)
      requires Valid() && rest.lock == Holding(caller, key) && admitted.outstanding <= admitted.maximum
      modifies this, queues, world
      ensures Valid() && rest.lock.Free? && Reaches(old(Protocol()), steps, Protocol())
      ensures outcome == NoRoom || outcome == Accepted(old(queues.nextOrder), admitted)
      ensures Acts(steps) == [if outcome.Accepted? then Push else Full]
      ensures outcome.NoRoom? ==>
                world.answers != [] && world.answers[|world.answers| - 1] == Answer(caller, Refusal(outcome))
      ensures outcome.Accepted? ==> Holds(outcome, caller, key, old(queues.nextOrder))
    {
      hide Inv, Reaches, Acts, Refusal;
      ghost var s := Protocol();
      steps := Others();
      ghost var t := Protocol();
      var order, accepted;
      ghost var more;
      order, accepted, more := Place(caller, key);
      steps := Extend(s, steps, t, more, Protocol());
      outcome := if accepted then Accepted(order, admitted) else NoRoom;
    }

    /** Maintenance and then the permit, while other tasks go on. */
    method TakeAmid(caller: nat, key: Key) returns (admitted: Option<Snapshot>, ghost steps: seq<Step>)
      requires Valid() && rest.lock == Open(caller, key)
      modifies this, queues, world
      ensures Valid() && Reaches(old(Protocol()), steps, Protocol())
      ensures Acts(steps) == [if admitted.Some? then Acquire else Exhausted]
      ensures rest.lock == (if admitted.Some? then Holding(caller, key) else Free)
      ensures queues.nextOrder == old(queues.nextOrder)
      ensures admitted.Some? ==> admitted.value.outstanding <= admitted.value.maximum
      ensures admitted.None? ==>
                world.answers != [] && world.answers[|world.answers| - 1] == Answer(caller, Refusal(NoPermit))
    {
      hide Inv, Reaches, Acts, Apply, Enabled, Refusal;
      ghost var s := Protocol();
      steps := MaintainAmid();
      ghost var t := Protocol();
      admitted := Take(caller, key);
      steps := Act(s, steps, t, if admitted.Some? then Acquire else Exhausted);
    }

    /** Admission of a caller that found the gateway open: maintenance, permit, number, capacity, push. */
    method Admit(caller: nat, key: Key) returns (outcome: Outcome, ghost steps: seq<Step>)
      requires Valid() && rest.lock == Open(caller, key)
      modifies this, queues, world
      ensures Valid() && rest.lock.Free? && Reaches(old(Protocol()), steps, Protocol())
      ensures !outcome.Closed? && [SeeOpen] + Acts(steps) == Course(outcome)
      ensures !outcome.Accepted? ==>
                world.answers != [] && world.answers[|world.answers| - 1] == Answer(caller, Refusal(outcome))
      ensures outcome.Accepted? ==> Holds(outcome, caller, key, old(queues.nextOrder))
    {
      hide Inv, Reaches, Acts, Apply, Enabled, Refusal, Holds;
      ghost var s := Protocol();
      var admitted;
      admitted, steps := TakeAmid(caller, key);
      if admitted.None? {
        return NoPermit, steps;
      }
      ghost var t, more := Protocol(), [];
      outcome, more := PlaceAmid(caller, key, admitted.value);
      steps := Extend(s, steps, t, more, Protocol());
    }

    /** The job of an accepted submission is the last of its queue, with the next number and a permit within the
        ceiling, and the queue is within its capacity. */
    ghost predicate Holds(outcome: Outcome, caller: nat, key: Key, next: nat)
      requires outcome.Accepted?
      reads this, queues, world
    {
      && outcome.admitted.outstanding <= outcome.admitted.maximum
      && outcome.order == next && queues.nextOrder == next + 1
      && 0 < |queues.Queued().Of(key.cls)| <= cfg.capacity
      && var job := queues.Queued().Of(key.cls)[|queues.Queued().Of(key.cls)| - 1];
         && job.reply == caller && job.permit == key && job.order == outcome.order && job.acceptedAt == world.now
         && job.maxWait == if key.cls == Interactive then cfg.interactiveWait else cfg.agentWait
    }

    /** The critical section of `enqueue` for a caller that has just taken the lock, while other tasks go on. It is a
        run of the protocol in which the caller is turned away, for the reason given and with its answer, or its job
        is queued; then the lock is free again. */
    method Submit(caller: nat, key: Key) returns (outcome: Outcome, ghost steps: seq<Step>)
      requires Valid() && rest.lock == Entered(caller, key)
      modifies this, queues, world
      ensures Valid() && rest.lock.Free? && Reaches(old(Protocol()), steps, Protocol())
      ensures Acts(steps) == Course(outcome)
      ensures old(closing) ==> outcome.Closed?
      ensures !outcome.Accepted? ==>
                world.answers != [] && world.answers[|world.answers| - 1] == Answer(caller, Refusal(outcome))
      ensures outcome.Accepted? ==> Holds(outcome, caller, key, old(queues.nextOrder))
    {
      hide Inv, Reaches, Acts, Apply, Enabled;
      ghost var s := Protocol();
      steps := Others();
      ghost var t := Protocol();
      var open := Look(caller, key);
      steps := Act(s, steps, t, if open then SeeOpen else SeeClosed);
      if !open {
        return Closed, steps;
      }
      t := Protocol();
      ghost var more;
      outcome, more := Admit(caller, key);
      steps := Extend(s, steps, t, more, Protocol());
    }

    // ---------- The scheduler ----------

    /** The job that was selected starts to run. */
    method Start(job: Job, ghost t: State, ghost cls: Class)
      requires t.books.waiting.Of(cls) != [] && job == t.books.waiting.Of(cls)[0]
      requires Present() == t.(books := Popped(t.books, cls), history := rest.history,
                               streak := NextStreak(t.cfg.mode, t.streak, t.books.waiting, cls))
      modifies this`running, this`rest, this`past
      ensures Protocol() == HandedOff(t, cls) && running == old(running) + 1
      ensures rest == old(rest).(executing := old(rest.executing) + [job])
    {
      hide NextStreak, Popped;
      running := running + 1;
      rest := rest.(executing := rest.executing + [job]);
      past := HandedOff(t, cls).history;
    }

    /** Selection under the lock: a run of warranted drops to a state `t` whose selected job, if any, has just left its
        queue. */
    method SelectNext() returns (job: Option<Job>, ghost t: State, ghost steps: seq<Step>)
      requires Valid() && rest.lock.Scheduling?
      modifies queues`interactive, queues`agents, queues`streak, world
      ensures Reaches(old(Protocol()), steps, t) && Acts(steps) == []
      ensures rest == old(rest) && t.lock.Scheduling? && t.Running() == running && t.cfg == cfg
      ensures job.None? ==>
                t.Select() == None && Present() == t.(streak := 0, history := rest.history)
                && queues.Queued().Size() == 0 && queues.streak == 0
      ensures job.Some? ==>
                && t.Select().Some? && job.value == t.books.waiting.Of(t.Select().value)[0]
                && Stays(job.value, t.departed, t.now)
                && Present() == t.(books := Popped(t.books, t.Select().value), history := rest.history,
                                   streak := NextStreak(t.cfg.mode, t.streak, t.books.waiting, t.Select().value))
    {
      hide Inv, Reaches, AllRemovable, RemoveAll, Dropped, Warranted, Covered, Apply, Enabled, Acts, NextStreak, Stays,
           Popped;
      ghost var before := Protocol();
      InvCovers(before);
      ghost var rs;
      job, rs := queues.PopNext(world);
      steps := MaintainedRun(before, world.departed, world.now, rs);
      t := Maintained(before, world.departed, world.now, rs);
    }

    /** One turn of the filling loop: the next job is handed to an executor while the lock is held, or there is none
        and the streak is reset. */
    method HandOffNext() returns (handed: bool, ghost steps: seq<Step>)
      requires Valid() && rest.lock.Scheduling? && running < cfg.limit
      modifies this, queues, world
      ensures Valid() && rest.lock.Scheduling? && Reaches(old(Protocol()), steps, Protocol())
      ensures Acts(steps) == [if handed then HandOff else FindNone]
      ensures running == if handed then old(running) + 1 else old(running)
      ensures !handed ==> queues.Queued().Size() == 0 && queues.streak == 0
      ensures rest.scheduler == old(rest.scheduler)
    {
      hide Inv, Reaches, Apply, Enabled, Acts, NextStreak, Stays, Popped, Chosen, HandedOff;
      ghost var before := Protocol();
      var job;
      ghost var t;
      job, t, steps := SelectNext();
      handed := job.Some?;
      if handed {
        ghost var cls := t.Select().value;
        Start(job.value, t, cls);
        HandOffStep(t, cls);
      } else {
        past := t.history;
        FindNoneStep(t);
      }
      steps := Act(before, steps, t, if handed then HandOff else FindNone);
      ReachesInv(before, steps, Protocol());
    }

    /** Other tasks go on, then one turn. */
    method HandOffAmid() returns (handed: bool, ghost steps: seq<Step>)
      requires Valid() && rest.lock.Scheduling? && running < cfg.limit
      modifies this, queues, world
      ensures Valid() && rest.lock.Scheduling? && Reaches(old(Protocol()), steps, Protocol())
      ensures Acts(steps) == [if handed then HandOff else FindNone]
      ensures running == if handed then old(running) + 1 else old(running)
      ensures !handed ==> queues.Queued().Size() == 0 && queues.streak == 0
    {
      hide Inv, Reaches, Acts;
      ghost var s := Protocol();
      InvPass(s);
      steps := Others();
      ghost var t := Protocol();
      ghost var more;
      handed, more := HandOffNext();
      steps := Extend(s, steps, t, more, Protocol());
    }

    /** The end of the pass: return when closed and drained, or else wait for the earliest deadline. */
    method LeavePass() returns (returned: bool, deadline: Option<nat>)
      requires Valid() && rest.lock.Scheduling?
      requires running >= cfg.limit || (queues.Queued().Size() == 0 && queues.streak == 0)
      modifies this`rest
      ensures Valid() && Enabled(old(Protocol()), Leave) && Protocol() == Apply(old(Protocol()), Leave)
      ensures rest.lock.Free?
      ensures returned <==> closing && running == 0 && queues.Queued().Size() == 0
      ensures rest.scheduler == if returned then Returned else Leaving(deadline)
      ensures !returned ==> deadline == NextDeadline(queues.Queued())
    {
      hide Inv, NextDeadline, Apply, Enabled;
      ghost var before := Protocol();
      LeaveStep(before);
      returned := closing && running == 0 && queues.interactive == [] && queues.agents == [];
      deadline := if returned then None else NextDeadline(Waiting(queues.interactive, queues.agents));
      rest := rest.(lock := Free, scheduler := if returned then Returned else Leaving(deadline));
      StepInv(before, Leave);
    }

    /** Other tasks go on, then the pass ends. */
    method LeaveAmid() returns (returned: bool, deadline: Option<nat>, ghost steps: seq<Step>)
      requires Valid() && rest.lock.Scheduling?
      requires running >= cfg.limit || (queues.Queued().Size() == 0 && queues.streak == 0)
      modifies this, queues, world
      ensures Valid() && rest.lock.Free? && Reaches(old(Protocol()), steps, Protocol()) && Acts(steps) == [Leave]
      ensures running == old(running) && queues.Queued() == old(queues.Queued())
      ensures returned <==> closing && running == 0 && queues.Queued().Size() == 0
      ensures rest.scheduler == if returned then Returned else Leaving(deadline)
      ensures !returned ==> deadline == NextDeadline(queues.Queued())
    {
      hide Inv, Reaches, Acts, Apply, Enabled, NextDeadline;
      ghost var s := Protocol();
      InvPass(s);
      steps := Others();
      ghost var t := Protocol();
      returned, deadline := LeavePass();
      steps := Act(s, steps, t, Leave);
    }

    /** The critical section of a scheduler pass, while other tasks go on. It is a run of the protocol that ends with
        the lock free and the scheduler returned or about to wait for the earliest deadline, and it leaves a job queued
        only when every execution slot is taken. */
    method Pass() returns (deadline: Option<nat>, returned: bool, ghost handed: nat, ghost steps: seq<Step>)
      requires Valid() && rest.lock.Scheduling?
      modifies this, queues, world
      ensures Valid() && rest.lock.Free? && Reaches(old(Protocol()), steps, Protocol())
      ensures Acts(steps) == PassCourse(handed, running < cfg.limit) + [Leave]
      ensures queues.Queued().Size() == 0 || running >= cfg.limit
      ensures running == old(running) + handed
      ensures returned <==> closing && running == 0 && queues.Queued().Size() == 0
      ensures rest.scheduler == if returned then Returned else Leaving(deadline)
      ensures !returned ==> deadline == NextDeadline(queues.Queued())
    {
      hide Inv, Reaches, Acts, NextDeadline, PassCourse;
      ghost var s := Protocol();
      ghost var t, more;
      handed := 0;
      InvPass(s);
      steps := MaintainAmid();
      CourseStarts();
      var filling := true;
      while running < cfg.limit && filling
        invariant Valid() && rest.lock.Scheduling? && Reaches(s, steps, Protocol())
        invariant Acts(steps) == PassCourse(handed, !filling) && running == old(running) + handed
        invariant !filling ==> queues.Queued().Size() == 0 && queues.streak == 0 && running < cfg.limit
        decreases cfg.limit - running, filling
      {
        t := Protocol();
        filling, more := HandOffAmid();
        steps := Extend(s, steps, t, more, Protocol());
        CourseGrows(handed, filling);
        handed := if filling then handed + 1 else handed;
      }
      t := Protocol();
      returned, deadline, more := LeaveAmid();
      steps := Extend(s, steps, t, more, Protocol());
    }

    // ---------- Drop ----------

    /** The critical section of a dropped gateway: every waiting job is refused and its permit released, and nothing
        is queued any more. */
    method RejectAll() returns (ghost steps: seq<Step>)
      requires Valid() && rest.lock.Rejecting?
      modifies this, queues, world
      ensures Valid() && rest.lock.Free? && rest.owner.Rejected? && Reaches(old(Protocol()), steps, Protocol())
      ensures Acts(steps) == [RejectDone] && queues.Queued().Size() == 0
    {
      hide Inv, Reaches, AllRemovable, RemoveAll, Dropped, Covered, Apply, Enabled, Acts;
      ghost var s := Protocol();
      steps := Others();
      ghost var t := Protocol();
      InvCovers(t);
      ghost var rs := queues.RejectPending(world);
      past := Dropped(past, rs);
      RejectionsRun(t, rs);
      steps := Extend(s, steps, t, Rejections(rs), Protocol());
      ghost var u := Protocol();
      rest := rest.(lock := Free, owner := Rejected);
      RejectedStep(u);
      steps := Act(s, steps, u, RejectDone);
      ReachesInv(s, steps, Protocol());
    }
  }
}
