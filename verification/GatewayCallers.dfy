/** Where every caller is, and what it is told: each caller is in exactly one place, each accepted job meets
    exactly one fate, at most one answer is given, and the answer agrees with the hand-off. */
module GatewayCallers {
  import opened Wrappers
  import opened Budgets
  import opened Responses
  import opened Queueing
  import opened Gateway
  import opened GatewayEffects

  // ---------- Tallies ----------

  function Callers(answers: seq<Answer>): seq<nat> {
    seq(|answers|, i requires 0 <= i < |answers| => answers[i].caller)
  }

  function Told(answers: seq<Answer>, c: nat): nat {
    multiset(Callers(answers))[c]
  }

  function HandoffCallers(handoffs: seq<Handoff>): seq<nat> {
    seq(|handoffs|, i requires 0 <= i < |handoffs| => handoffs[i].caller)
  }

  /** How often caller `c` has been handed to an executor. */
  function Handed(handoffs: seq<Handoff>, c: nat): nat {
    multiset(HandoffCallers(handoffs))[c]
  }

  lemma ToldAppend(answers: seq<Answer>, a: Answer)
    ensures forall c :: Told(answers + [a], c) == Told(answers, c) + (if a.caller == c then 1 else 0)
  {
    assert Callers(answers + [a]) == Callers(answers) + [a.caller];
  }

  lemma ToldRemove(answers: seq<Answer>, i: nat)
    requires i < |answers|
    ensures forall c :: Told(RemoveAt(answers, i), c) == Told(answers, c) - (if answers[i].caller == c then 1 else 0)
  {
    assert Callers(RemoveAt(answers, i)) == RemoveAt(Callers(answers), i);
    MultisetRemoveAt(Callers(answers), i);
  }

  lemma ToldPositive(answers: seq<Answer>, i: nat)
    requires i < |answers|
    ensures Told(answers, answers[i].caller) > 0
  {
    assert Callers(answers)[i] == answers[i].caller;
  }

  lemma HandedAppend(handoffs: seq<Handoff>, h: Handoff)
    ensures forall c :: Handed(handoffs + [h], c) == Handed(handoffs, c) + (if h.caller == c then 1 else 0)
  {
    assert HandoffCallers(handoffs + [h]) == HandoffCallers(handoffs) + [h.caller];
  }

  // ---------- Places and fates ----------

  function Inside(lock: Holder, c: nat): nat {
    if (lock.Entered? || lock.Open? || lock.Holding?) && lock.caller == c then 1 else 0
  }

  /** In how many places caller `c` is: inside the lock, queued, executing, owed an answer, silently discarded,
      or answered. */
  function Places(s: State, c: nat): nat {
    Inside(s.lock, c) + Everywhere(s.books.waiting, c) + Count(s.executing, c) + Told(s.settling, c)
    + s.history.gone[c] + Told(s.books.answers, c)
  }

  /** How many fates the job of caller `c` has met, being still queued among them. */
  function Fates(s: State, c: nat): nat {
    Everywhere(s.books.waiting, c) + Handed(s.history.handoffs, c)
    + s.history.expired[c] + s.history.refused[c] + s.history.gone[c]
  }

  ghost predicate OnePlace(s: State) {
    forall c :: Places(s, c) == if c in s.seen then 1 else 0
  }

  ghost predicate OneFate(s: State) {
    && (forall c :: Fates(s, c) == if c in s.history.accepted then 1 else 0)
    && s.history.accepted <= s.seen
    && (s.lock.Entered? || s.lock.Open? || s.lock.Holding? ==>
          s.lock.caller in s.seen && s.lock.caller !in s.history.accepted)
  }

  predicate MovesCallers(step: Step) {
    || step.RefuseEarly? || step.Enter? || step.SeeClosed? || step.SeeOpen? || step.Drop? || step.Exhausted?
    || step.Acquire? || step.Full? || step.Push? || step.HandOff? || step.Complete? || step.Reply? || step.Lose?
    || step.RejectOne?
  }

  predicate SameCallers(s: State, t: State) {
    && t.books.waiting == s.books.waiting && t.executing == s.executing && t.settling == s.settling
    && t.books.answers == s.books.answers && t.history == s.history && t.seen == s.seen
    && (t.lock == s.lock || (!HasCaller(s.lock) && !HasCaller(t.lock)))
  }

  predicate HasCaller(lock: Holder) {
    lock.Entered? || lock.Open? || lock.Holding?
  }

  lemma QuietCallers(s: State, step: Step)
    requires Enabled(s, step) && !MovesCallers(step)
    ensures SameCallers(s, Apply(s, step))
  {
    Kinds(step);
    if step.Resize? {
      EntryFrame(s, step);
    } else if ByScheduler(step) {
      SchedulerFrame(s, step);
    } else {
      AroundFrame(s, step);
    }
    hide Apply, Enabled;
  }

  lemma SameCallersTally(s: State, t: State)
    requires SameCallers(s, t)
    ensures forall c :: Places(t, c) == Places(s, c) && Fates(t, c) == Fates(s, c)
  {
  }

  lemma RemovedTally(s: State, r: Removal)
    requires Removable(s.books, r)
    ensures forall c :: Places(Removed(s, r), c) == Places(s, c)
    ensures forall c :: Fates(Removed(s, r), c) == Fates(s, c)
  {
    var t := Removed(s, r);
    TallyRemove(s.books.waiting.Of(r.cls), r.index);
    assert forall c :: Everywhere(t.books.waiting, c)
                       == Everywhere(s.books.waiting, c) - (if r.job.reply == c then 1 else 0);
    if r.reason.Gone? {
      assert t.books.answers == s.books.answers;
    } else {
      ToldAppend(s.books.answers, Notice(r)[0]);
    }
    hide Everywhere;
  }

  lemma PushTally(s: State)
    requires s.lock.Holding?
    ensures forall c :: Places(Pushed(s), c) == Places(s, c)
    ensures forall c :: Fates(Pushed(s), c) == Fates(s, c) + (if c == s.lock.caller then 1 else 0)
  {
    var t := Pushed(s);
    TallyAppend(s.books.waiting.Of(s.lock.key.cls), Admitted(s));
    assert forall c :: Everywhere(t.books.waiting, c)
                       == Everywhere(s.books.waiting, c) + (if s.lock.caller == c then 1 else 0);
    hide Everywhere;
  }

  lemma HandOffTally(s: State, cls: Class)
    requires s.books.waiting.Of(cls) != []
    ensures forall c :: Places(HandedOff(s, cls), c) == Places(s, c)
    ensures forall c :: Fates(HandedOff(s, cls), c) == Fates(s, c)
  {
    var jobs, t := s.books.waiting.Of(cls), HandedOff(s, cls);
    assert RemoveAt(jobs, 0) == jobs[1..] == t.books.waiting.Of(cls);
    TallyRemove(jobs, 0);
    TallyAppend(s.executing, jobs[0]);
    HandedAppend(s.history.handoffs, Handoff(jobs[0].reply, cls, jobs[0].order));
    assert forall c :: Everywhere(t.books.waiting, c)
                       == Everywhere(s.books.waiting, c) - (if jobs[0].reply == c then 1 else 0);
    hide Everywhere;
  }

  /** The caller a step answers outside the queues, if any. */
  function Turned(s: State, step: Step): Option<nat> {
    if step.RefuseEarly? then Some(step.caller)
    else if (step.SeeClosed? || step.Exhausted? || step.Full?) && HasCaller(s.lock) then Some(s.lock.caller)
    else None
  }

  function TurnedResponse(step: Step): Response {
    if step.RefuseEarly? then step.response
    else if step.SeeClosed? then GatewayClosed()
    else if step.Exhausted? then Overloaded("budget_exhausted", "1")
    else Overloaded("queue_full", "1")
  }

  lemma TurnedAnswer(s: State, step: Step)
    requires Enabled(s, step) && Turned(s, step).Some?
    ensures Refuses(step)
    ensures Apply(s, step).books.answers ==
            s.books.answers + [Answer(Turned(s, step).value, TurnedResponse(step))]
    ensures Apply(s, step).seen == s.seen + (if step.RefuseEarly? then {step.caller} else {})
    ensures NotStarted(TurnedResponse(step))
  {
    hide Release1, Admits;
  }

  lemma TurnedTally(s: State, step: Step)
    requires Enabled(s, step) && Turned(s, step).Some?
    ensures var t, d := Apply(s, step), if step.RefuseEarly? then 1 else 0;
            && (forall c :: Places(t, c) == Places(s, c) + (if c == Turned(s, step).value then d else 0))
            && (forall c :: Fates(t, c) == Fates(s, c))
            && t.history == s.history && t.seen == s.seen + (if step.RefuseEarly? then {step.caller} else {})
            && !HasCaller(t.lock) == !(HasCaller(s.lock) && step.RefuseEarly?)
            && (HasCaller(t.lock) ==> t.lock == s.lock)
  {
    TurnedAnswer(s, step);
    RefusalFrame(s, step);
    ToldAppend(s.books.answers, Answer(Turned(s, step).value, TurnedResponse(step)));
    hide Apply, Enabled, Everywhere, TurnedResponse, Told, Count;
  }

  lemma CompleteTally(s: State, step: Step)
    requires step.Complete? && Enabled(s, step)
    ensures forall c :: Places(Apply(s, step), c) == Places(s, c)
  {
    var t := Apply(s, step);
    var a := Answer(s.executing[step.task].reply, Execute(step.execution, s.cfg.maxBody));
    assert t.executing == RemoveAt(s.executing, step.task) && t.settling == s.settling + [a];
    assert t.books.waiting == s.books.waiting && t.books.answers == s.books.answers;
    assert t.lock == s.lock && t.history == s.history;
    hide Apply, Enabled, Execute, RemoveAt;
    TallyRemove(s.executing, step.task);
    ToldAppend(s.settling, a);
    hide Everywhere, Told, Count, Inside;
  }

  lemma ReplyTally(s: State, step: Step)
    requires step.Reply? && Enabled(s, step)
    ensures forall c :: Places(Apply(s, step), c) == Places(s, c)
  {
    var t, a := Apply(s, step), s.settling[step.task];
    assert t.settling == RemoveAt(s.settling, step.task) && t.books.answers == s.books.answers + [a];
    ReplyFrame(s, step);
    hide Apply, Enabled, RemoveAt;
    ToldRemove(s.settling, step.task);
    ToldAppend(s.books.answers, a);
    hide Everywhere, Told, Count, Inside;
  }

  lemma LoseTally(s: State, step: Step)
    requires step.Lose? && Enabled(s, step)
    ensures forall c :: Places(Apply(s, step), c) == Places(s, c)
  {
    TallyRemove(s.executing, step.task);
    ToldAppend(s.books.answers, Answer(s.executing[step.task].reply, LostReply()));
    hide RemoveAt, LostReply, Release1, Everywhere, Told, Count;
  }

  lemma TaskTally(s: State, step: Step)
    requires Enabled(s, step) && ByTask(step)
    ensures var t := Apply(s, step);
            && (forall c :: Places(t, c) == Places(s, c))
            && (forall c :: Fates(t, c) == Fates(s, c))
            && t.history == s.history && t.seen == s.seen && t.lock == s.lock
  {
    TaskFrame(s, step);
    assert forall c :: Fates(Apply(s, step), c) == Fates(s, c);
    hide Apply, Enabled, Places, Fates;
    match step
    case Complete(_, _) => CompleteTally(s, step);
    case Reply(_) => ReplyTally(s, step);
    case Lose(_) => LoseTally(s, step);
  }

  lemma EnterTally(s: State, step: Step)
    requires Enabled(s, step) && (step.Enter? || step.SeeOpen? || step.Acquire?)
    ensures var t := Apply(s, step);
            && (forall c :: Places(t, c) == Places(s, c) + (if step.Enter? && c == step.caller then 1 else 0))
            && (forall c :: Fates(t, c) == Fates(s, c))
  {
    EntryFrame(s, step);
    EntryHolder(s, step);
    hide Apply, Enabled, Everywhere, Told, Count, Handed;
  }

  lemma EntryHolder(s: State, step: Step)
    requires Enabled(s, step) && (step.Enter? || step.SeeOpen? || step.Acquire?)
    ensures forall c :: Inside(Apply(s, step).lock, c) ==
                        Inside(s.lock, c) + (if step.Enter? && c == step.caller then 1 else 0)
  {
  }

  lemma QueueHistory(s: State, step: Step)
    requires Enabled(s, step) && (step.Drop? || step.RejectOne? || step.HandOff?)
    ensures Apply(s, step).lock == s.lock && Apply(s, step).seen == s.seen
    ensures Apply(s, step).history.accepted == s.history.accepted
  {
    hide Remove, Popped, NextStreak, Stays, MayDrop, Removable, Chosen;
  }

  lemma MovedHistory(s: State, step: Step)
    requires Enabled(s, step) && MovesCallers(step) && Turned(s, step).None? && !step.Enter?
    ensures var t := Apply(s, step);
            && t.seen == s.seen
            && t.history.accepted == s.history.accepted + (if step.Push? then {s.lock.caller} else {})
            && (HasCaller(t.lock) ==> HasCaller(s.lock) && t.lock.caller == s.lock.caller)
            && (step.Push? ==> !HasCaller(t.lock))
  {
    if ByTask(step) {
      TaskFrame(s, step);
      hide Enabled, Apply;
    } else if step.Drop? || step.RejectOne? || step.HandOff? {
      QueueHistory(s, step);
      hide Enabled, Apply;
    } else {
      assert step.SeeOpen? || step.Acquire? || step.Push?;
      hide Acquire1, Admits;
    }
  }

  lemma MovedTally(s: State, step: Step)
    requires Enabled(s, step) && MovesCallers(step) && Turned(s, step).None? && !step.Enter?
    ensures var t := Apply(s, step);
            && (forall c :: Places(t, c) == Places(s, c))
            && (forall c :: Fates(t, c) == Fates(s, c) + (if step.Push? && c == s.lock.caller then 1 else 0))
  {
    hide Places, Fates, Remove, RemoveAt, Popped, NextStreak, Execute, Stays, MayDrop, RefusedEarly, Chosen;
    match step
    case Drop(r) => RemovedTally(s, r);
    case RejectOne(cls) => RemovedTally(s, Removal(cls, 0, s.books.waiting.Of(cls)[0], Refused));
    case Push => PushTally(s);
    case HandOff => HandOffTally(s, s.Select().value);
    case _ =>
      if step.SeeOpen? || step.Acquire? {
        EnterTally(s, step);
      } else {
        TaskTally(s, step);
      }
  }

  lemma TallyCarries(s: State, t: State, entered: set<nat>, joined: set<nat>)
    requires OnePlace(s) && OneFate(s)
    requires forall c :: Places(t, c) == Places(s, c) + (if c in entered then 1 else 0)
    requires forall c :: Fates(t, c) == Fates(s, c) + (if c in joined then 1 else 0)
    requires entered !! s.seen && t.seen == s.seen + entered
    requires joined !! s.history.accepted && joined <= s.seen
    requires t.history.accepted == s.history.accepted + joined
    requires HasCaller(t.lock) ==> t.lock.caller in t.seen && t.lock.caller !in t.history.accepted
    ensures OnePlace(t) && OneFate(t)
  {
    hide Places, Fates;
  }

  /** Every caller stays in exactly one place, and every accepted job at exactly one fate. */
  lemma CallersStep(s: State, step: Step)
    requires OnePlace(s) && OneFate(s) && Enabled(s, step)
    ensures OnePlace(Apply(s, step)) && OneFate(Apply(s, step))
  {
    hide Places, Fates, OnePlace, Remove, RemoveAt, Popped, NextStreak, Execute, Stays, MayDrop, RefusedEarly, Chosen;
    var t := Apply(s, step);
    var entered := if step.Enter? || step.RefuseEarly? then {step.caller} else {};
    var joined := if step.Push? then {s.lock.caller} else {};
    if !MovesCallers(step) {
      QuietCallers(s, step);
      SameCallersTally(s, t);
    } else if Turned(s, step).Some? {
      TurnedTally(s, step);
    } else if step.Enter? {
      EnterTally(s, step);
    } else {
      MovedTally(s, step);
      MovedHistory(s, step);
    }
    hide Apply, OneFate;
    TallyCarries(s, t, entered, joined);
  }

  // ---------- What callers are told ----------

  /** An answer agrees with the hand-offs: after one, a success or an error marked unknown; otherwise a response
      that is known not to have started. */
  predicate Fits(handoffs: seq<Handoff>, a: Answer) {
    if Handed(handoffs, a.caller) > 0 then AfterHandOff(a.response) else NotStarted(a.response)
  }

  predicate Honest(s: State) {
    && (forall i | 0 <= i < |s.books.answers| :: Fits(s.history.handoffs, s.books.answers[i]))
    && (forall i | 0 <= i < |s.settling| ::
          AfterHandOff(s.settling[i].response) && Handed(s.history.handoffs, s.settling[i].caller) > 0)
    && (forall i | 0 <= i < |s.executing| :: Handed(s.history.handoffs, s.executing[i].reply) > 0)
  }

  lemma NotYetHanded(s: State, c: nat)
    requires OneFate(s) && (c !in s.history.accepted || Everywhere(s.books.waiting, c) > 0)
    ensures Handed(s.history.handoffs, c) == 0
  {
    assert Fates(s, c) <= 1;
  }

  lemma QueuedIsUnanswered(s: State, cls: Class, i: nat)
    requires OnePlace(s) && i < |s.books.waiting.Of(cls)|
    ensures var c := s.books.waiting.Of(cls)[i].reply;
            Everywhere(s.books.waiting, c) > 0 && Told(s.books.answers, c) == 0
  {
    var jobs := s.books.waiting.Of(cls);
    CountPositive(jobs, jobs[i].reply);
    assert Places(s, jobs[i].reply) <= 1;
  }

  lemma RemovedHonest(s: State, r: Removal)
    requires Honest(s) && OneFate(s) && Removable(s.books, r)
    ensures Honest(Removed(s, r))
  {
    CountPositive(s.books.waiting.Of(r.cls), r.job.reply);
    assert s.books.waiting.Of(r.cls)[r.index].reply == r.job.reply;
    NotYetHanded(s, r.job.reply);
    NoticesFit(s.history.handoffs, r);
    hide NotStarted, AfterHandOff, Handed, Notice, RemoveAt, Release1, Count, Fates, OneFate, Fits;
  }

  lemma NoticesFit(handoffs: seq<Handoff>, r: Removal)
    requires Handed(handoffs, r.job.reply) == 0
    ensures forall i | 0 <= i < |Notice(r)| :: Fits(handoffs, Notice(r)[i])
  {
  }

  lemma HandOffHonest(s: State, cls: Class)
    requires Honest(s) && OnePlace(s) && s.books.waiting.Of(cls) != []
    ensures Honest(HandedOff(s, cls))
  {
    var job, t := s.books.waiting.Of(cls)[0], HandedOff(s, cls);
    HandedAppend(s.history.handoffs, Handoff(job.reply, cls, job.order));
    QueuedIsUnanswered(s, cls, 0);
    hide NotStarted, AfterHandOff, Handed;
    forall i | 0 <= i < |s.books.answers| ensures Fits(t.history.handoffs, s.books.answers[i]) {
      ToldPositive(s.books.answers, i);
    }
  }

  lemma TurnedHonest(s: State, step: Step)
    requires Honest(s) && OneFate(s) && Enabled(s, step) && Turned(s, step).Some?
    ensures Honest(Apply(s, step))
  {
    NotYetHanded(s, Turned(s, step).value);
    TurnedAnswer(s, step);
    RefusalFrame(s, step);
    hide Apply, Enabled, NotStarted, AfterHandOff, Handed, TurnedResponse, Fates, Everywhere;
  }

  lemma CompleteHonest(s: State, i: nat, e: Execution)
    requires Honest(s) && i < |s.executing|
    ensures Honest(Apply(s, Complete(i, e)))
  {
    ExecutionsAreNeverRetryable(e, s.cfg.maxBody);
    hide NotStarted, AfterHandOff, Handed, Execute, Release1;
    assert forall k | 0 <= k < |s.executing| - 1 :: RemoveAt(s.executing, i)[k] in s.executing;
  }

  lemma ReplyHonest(s: State, i: nat)
    requires Honest(s) && i < |s.settling|
    ensures Honest(Apply(s, Reply(i)))
  {
    hide NotStarted, AfterHandOff, Handed;
    assert forall k | 0 <= k < |s.settling| - 1 :: RemoveAt(s.settling, i)[k] in s.settling;
  }

  lemma LoseHonest(s: State, i: nat)
    requires Honest(s) && i < |s.executing|
    ensures Honest(Apply(s, Lose(i)))
  {
    var t := Apply(s, Lose(i));
    assert t.executing == RemoveAt(s.executing, i) && t.settling == s.settling && t.history == s.history;
    assert t.books.answers == s.books.answers + [Answer(s.executing[i].reply, LostReply())];
    assert AfterHandOff(LostReply());
    hide Apply, NotStarted, AfterHandOff, Handed, LostReply;
    assert forall k | 0 <= k < |t.executing| :: t.executing[k] in s.executing;
  }

  lemma SameCallersHonest(s: State, t: State)
    requires Honest(s) && t.books.answers == s.books.answers && t.settling == s.settling
    requires t.executing == s.executing && t.history.handoffs == s.history.handoffs
    ensures Honest(t)
  {
  }

  lemma TaskHonest(s: State, step: Step)
    requires Honest(s) && Enabled(s, step) && ByTask(step)
    ensures Honest(Apply(s, step))
  {
    hide Honest;
    match step
    case Complete(i, e) => CompleteHonest(s, i, e);
    case Reply(i) => ReplyHonest(s, i);
    case Lose(i) => LoseHonest(s, i);
  }

  lemma EntryHonest(s: State, step: Step)
    requires Honest(s) && Enabled(s, step) && (step.Enter? || step.SeeOpen? || step.Acquire? || step.Push?)
    ensures Honest(Apply(s, step))
  {
    if step.Push? {
      SameCallersHonest(s, Pushed(s));
    } else {
      EntryFrame(s, step);
      hide Apply, Enabled;
    }
  }

  /** Every answer keeps agreeing with the hand-offs, those of the past and those still to come. */
  lemma HonestStep(s: State, step: Step)
    requires OnePlace(s) && OneFate(s) && Honest(s) && Enabled(s, step)
    ensures Honest(Apply(s, step))
  {
    hide OnePlace, OneFate, Honest;
    if !MovesCallers(step) {
      QuietCallers(s, step);
      SameCallersHonest(s, Apply(s, step));
      hide Apply, Enabled;
    } else if Turned(s, step).Some? {
      TurnedHonest(s, step);
      hide Apply, Enabled;
    } else if ByTask(step) {
      TaskHonest(s, step);
      hide Apply, Enabled;
    } else if step.Enter? || step.SeeOpen? || step.Acquire? || step.Push? {
      EntryHonest(s, step);
      hide Apply, Enabled;
    } else {
      match step
      case Drop(r) => RemovedHonest(s, r);
      case RejectOne(cls) => RemovedHonest(s, Removal(cls, 0, s.books.waiting.Of(cls)[0], Refused));
      case HandOff => HandOffHonest(s, s.Select().value);
    }
  }
}
