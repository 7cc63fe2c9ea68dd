/** What happens to each caller in a run of the gateway, noted step by step by someone who only watches, and that
    every caller is told exactly what happened to it, and waits exactly as long as its class may. */
module GatewayRecords {
  import opened Wrappers
  import opened Budgets
  import opened Responses
  import opened Queueing
  import opened Gateway
  import opened GatewayEffects
  import opened GatewayCallers
  import opened GatewayTheorems

  /** A job was queued: with a permit of which budget, and at which reading of the clock. */
  datatype Entry = Entry(key: Key, at: nat)

  /** How the submission of a caller ended: without an entry, in its queue, or by its execution. */
  datatype Ending =
    | RefusedAtOnce(response: Response)
    | FoundClosed
    | FoundExhausted(budget: Snapshot)
    | FoundFull(queued: nat)
    | LeftQueue
    | RanOut(at: nat)
    | GatewayDropped
    | Ran(execution: Execution)
    | TaskLost

  /** A job was handed off: at which reading of the clock, and whether its caller was still there. */
  datatype Start = Start(at: nat, present: bool)

  /** `left` are the callers that have left so far, wherever they were. */
  datatype Record = Record(entries: map<nat, Entry>, starts: map<nat, Start>, endings: map<nat, Ending>, left: set<nat>)

  const BLANK := Record(map[], map[], map[], {})

  function Ended(r: Record, c: nat, ending: Ending): Record {
    r.(endings := r.endings[c := ending])
  }

  function Noted(r: Record, s: State, step: Step): Record
    requires Enabled(s, step)
  {
    match step
    case RefuseEarly(c, response) => Ended(r, c, RefusedAtOnce(response))
    case SeeClosed => Ended(r, s.lock.caller, FoundClosed)
    case Exhausted => Ended(r, s.lock.caller, FoundExhausted(s.books.ledger[s.lock.key]))
    case Full => Ended(r, s.lock.caller, FoundFull(|s.books.waiting.Of(s.lock.key.cls)|))
    case Push => r.(entries := r.entries[s.lock.caller := Entry(s.lock.key, s.now)])
    case Drop(removal) => Ended(r, removal.job.reply, if removal.reason.Gone? then LeftQueue else RanOut(s.now))
    case RejectOne(cls) => Ended(r, s.books.waiting.Of(cls)[0].reply, GatewayDropped)
    case Depart(callers) => r.(left := r.left + callers)
    case HandOff =>
      var c := s.books.waiting.Of(s.Select().value)[0].reply;
      r.(starts := r.starts[c := Start(s.now, c !in r.left)])
    case Complete(i, execution) => Ended(r, s.executing[i].reply, Ran(execution))
    case Lose(i) => Ended(r, s.executing[i].reply, TaskLost)
    case _ => r
  }

  ghost function Recorded(r: Record, s: State, steps: seq<Step>): Record
    requires IsRun(s, steps)
    decreases steps
  {
    if steps == [] then r else Recorded(Noted(r, s, steps[0]), Apply(s, steps[0]), steps[1..])
  }

  // ---------- What the states say about it ----------

  /** When a job that entered so has waited as long as its class may. */
  function Limit(cfg: Settings, e: Entry): nat {
    match e.key.cls
    case Interactive => e.at + cfg.interactiveWait
    case Agent => e.at + cfg.agentWait
  }

  /** A queued job stands for the entry of its caller, and its deadline is the limit of that entry. */
  predicate StandsFor(r: Record, cfg: Settings, job: Job, cls: Class) {
    && job.reply in r.entries && r.entries[job.reply] == Entry(job.permit, job.acceptedAt)
    && job.permit.cls == cls && job.Deadline() == Limit(cfg, r.entries[job.reply])
  }

  predicate AllStandFor(r: Record, cfg: Settings, jobs: seq<Job>, cls: Class) {
    forall i | 0 <= i < |jobs| :: StandsFor(r, cfg, jobs[i], cls)
  }

  predicate Timed(r: Record, s: State) {
    && AllStandFor(r, s.cfg, s.books.waiting.interactive, Interactive)
    && AllStandFor(r, s.cfg, s.books.waiting.agents, Agent)
  }

  /** Whoever entered was accepted; whoever started did so before its limit, and while its caller was there. */
  predicate Punctual(r: Record, s: State) {
    && (forall c | c in r.entries :: c in s.history.accepted)
    && (forall c | c in r.starts ::
          c in r.entries && r.starts[c].present && r.starts[c].at < Limit(s.cfg, r.entries[c]))
  }

  ghost predicate Started(r: Record, s: State) {
    forall c :: c in r.starts <==> Handed(s.history.handoffs, c) > 0
  }

  /** An answer given before the queue lock is taken: the test rejection, or an error of the request itself. */
  ghost predicate EarlyRefusal(r: Response) {
    || IsError(r, 429, "test_rejection", "not_started", Some("2"))
    || (r.status in {400, 401, 403, 404, 405, 413, 415, 422}
        && exists code :: IsError(r, r.status, code, "not_started", None))
  }

  lemma EarlyIsRefusal(r: Response)
    requires RefusedEarly(r)
    ensures EarlyRefusal(r)
  {
    if r.status != 429 {
      assert IsError(r, r.status, Code(r.body.value).s, "not_started", None);
    }
  }

  /** What must have been the case for a submission to end so. */
  ghost predicate Justified(r: Record, cfg: Settings, c: nat, ending: Ending) {
    match ending
    case RefusedAtOnce(response) => EarlyRefusal(response)
    case FoundExhausted(budget) => budget.outstanding >= budget.maximum
    case FoundFull(queued) => queued >= cfg.capacity
    case RanOut(at) => c in r.entries && Limit(cfg, r.entries[c]) <= at
    case LeftQueue => c in r.left
    case _ => true
  }

  ghost predicate AllJustified(r: Record, cfg: Settings) {
    forall c | c in r.endings :: Justified(r, cfg, c, r.endings[c])
  }

  /** What a caller is told when its submission ended so. */
  ghost predicate Tells(cfg: Settings, ending: Ending, r: Response) {
    match ending
    case RefusedAtOnce(response) => r == response
    case FoundClosed => IsError(r, 503, "gateway_closed", "not_started", None)
    case FoundExhausted(_) => IsError(r, 429, "budget_exhausted", "not_started", Some("1"))
    case FoundFull(_) => IsError(r, 429, "queue_full", "not_started", Some("1"))
    case LeftQueue => false
    case RanOut(_) => IsError(r, 503, "queue_timeout", "not_started", Some("1"))
    case GatewayDropped => IsError(r, 503, "gateway_closed", "not_started", None)
    case Ran(execution) => Outcome(execution, cfg.maxBody, r)
    case TaskLost => IsError(r, 500, "internal_error", "unknown", None)
  }

  ghost predicate Truthful(r: Record, cfg: Settings, answers: seq<Answer>) {
    forall i | 0 <= i < |answers| ::
      answers[i].caller in r.endings && Tells(cfg, r.endings[answers[i].caller], answers[i].response)
  }

  /** Whoever's submission has ended is answered, or owed the result of its execution, or has left. */
  ghost predicate Accounted(r: Record, s: State) {
    forall c | c in r.endings ::
      match r.endings[c]
      case LeftQueue => s.history.gone[c] > 0
      case Ran(_) => Told(s.settling, c) + Told(s.books.answers, c) > 0
      case _ => Told(s.books.answers, c) > 0
  }

  /** Answers owed are results of executions. */
  predicate OwedRan(r: Record, settling: seq<Answer>) {
    forall i | 0 <= i < |settling| :: settling[i].caller in r.endings && r.endings[settling[i].caller].Ran?
  }

  ghost predicate Kept(r: Record, s: State) {
    && Timed(r, s) && Punctual(r, s) && Started(r, s) && AllJustified(r, s.cfg)
    && Truthful(r, s.cfg, s.books.answers) && Truthful(r, s.cfg, s.settling) && OwedRan(r, s.settling)
    && Accounted(r, s)
  }

  // ---------- Every step keeps it ----------

  /** A submission that is still under way has not ended. */
  lemma NotEnded(r: Record, s: State, c: nat)
    requires Accounted(r, s) && OnePlace(s)
    requires c in s.seen ==> Inside(s.lock, c) + Everywhere(s.books.waiting, c) + Count(s.executing, c) > 0
    ensures c !in r.endings
  {
    assert Places(s, c) == if c in s.seen then 1 else 0;
    hide Inside, Everywhere, Count, Told;
  }

  lemma TruthfulLater(r: Record, cfg: Settings, answers: seq<Answer>, c: nat, ending: Ending)
    requires Truthful(r, cfg, answers) && c !in r.endings
    ensures Truthful(Ended(r, c, ending), cfg, answers)
  {
    hide Tells;
  }

  lemma TruthfulAppend(r: Record, cfg: Settings, answers: seq<Answer>, a: Answer)
    requires Truthful(r, cfg, answers) && a.caller in r.endings && Tells(cfg, r.endings[a.caller], a.response)
    ensures Truthful(r, cfg, answers + [a])
  {
    hide Tells;
  }

  lemma TruthfulRemove(r: Record, cfg: Settings, answers: seq<Answer>, i: nat)
    requires Truthful(r, cfg, answers) && OwedRan(r, answers) && i < |answers|
    ensures Truthful(r, cfg, RemoveAt(answers, i)) && OwedRan(r, RemoveAt(answers, i))
  {
    hide Tells;
  }

  /** The job queues and the records of entries and starts are as before. */
  predicate SameWaits(s: State, t: State) {
    && t.cfg == s.cfg && t.books.waiting == s.books.waiting
    && t.history.accepted == s.history.accepted && t.history.handoffs == s.history.handoffs
  }

  lemma WaitsKept(r: Record, s: State, r': Record, t: State)
    requires Timed(r, s) && Punctual(r, s) && Started(r, s) && SameWaits(s, t)
    requires r'.entries == r.entries && r'.starts == r.starts
    ensures Timed(r', t) && Punctual(r', t) && Started(r', t)
  {
    hide Limit, Handed;
  }

  lemma JustifiedLater(r: Record, cfg: Settings, c: nat, ending: Ending)
    requires AllJustified(r, cfg) && Justified(r, cfg, c, ending)
    ensures AllJustified(Ended(r, c, ending), cfg)
  {
    hide Limit, EarlyRefusal;
  }

  lemma OwedLater(r: Record, settling: seq<Answer>, c: nat, ending: Ending)
    requires OwedRan(r, settling) && c !in r.endings
    ensures OwedRan(Ended(r, c, ending), settling)
  {
  }

  lemma AccountedAnswer(r: Record, s: State, t: State, c: nat, ending: Ending, response: Response)
    requires Accounted(r, s) && !ending.LeftQueue?
    requires t.settling == s.settling && t.history.gone == s.history.gone
    requires t.books.answers == s.books.answers + [Answer(c, response)]
    ensures Accounted(Ended(r, c, ending), t)
  {
    ToldAppend(s.books.answers, Answer(c, response));
    hide Told;
  }

  /** A caller is answered, and nothing happens in the queues or among the execution tasks. */
  lemma AnsweredKept(r: Record, s: State, t: State, c: nat, ending: Ending, response: Response)
    requires Kept(r, s) && c !in r.endings && SameWaits(s, t)
    requires t.settling == s.settling && t.history.gone == s.history.gone
    requires t.books.answers == s.books.answers + [Answer(c, response)]
    requires Tells(s.cfg, ending, response) && Justified(r, s.cfg, c, ending)
    ensures Kept(Ended(r, c, ending), t)
  {
    var r' := Ended(r, c, ending);
    assert !ending.LeftQueue?;
    hide Tells, Justified, Timed, Punctual, Started, AllJustified, Truthful, OwedRan, Accounted;
    WaitsKept(r, s, r', t);
    JustifiedLater(r, s.cfg, c, ending);
    OwedLater(r, s.settling, c, ending);
    TruthfulLater(r, s.cfg, s.books.answers, c, ending);
    TruthfulLater(r, s.cfg, s.settling, c, ending);
    TruthfulAppend(r', s.cfg, s.books.answers, Answer(c, response));
    AccountedAnswer(r, s, t, c, ending, response);
  }

  /** The step answers a caller that is not in a queue: it noticed why. */
  lemma TurnedKept(r: Record, s: State, step: Step)
    requires Kept(r, s) && OnePlace(s) && OneFate(s) && Enabled(s, step) && Turned(s, step).Some?
    ensures Kept(Noted(r, s, step), Apply(s, step))
  {
    var c := Turned(s, step).value;
    TurnedAnswer(s, step);
    TurnedNoted(r, s, step);
    RefusalFrame(s, step);
    var ending := Noted(r, s, step).endings[c];
    assert c in s.seen ==> Inside(s.lock, c) > 0;
    hide Kept, Apply, Enabled, Noted, OnePlace, OneFate, TurnedResponse, Tells, Inside, Everywhere, Count;
    KeptAccounts(r, s);
    NotEnded(r, s, c);
    AnsweredKept(r, s, Apply(s, step), c, ending, TurnedResponse(step));
  }

  lemma KeptAccounts(r: Record, s: State)
    requires Kept(r, s)
    ensures Accounted(r, s)
  {
  }

  lemma TurnedNoted(r: Record, s: State, step: Step)
    requires Enabled(s, step) && Turned(s, step).Some?
    ensures var c := Turned(s, step).value;
            && c in Noted(r, s, step).endings && Noted(r, s, step) == Ended(r, c, Noted(r, s, step).endings[c])
            && Tells(s.cfg, Noted(r, s, step).endings[c], TurnedResponse(step))
            && Justified(r, s.cfg, c, Noted(r, s, step).endings[c])
            && (c in s.seen ==> Inside(s.lock, c) > 0)
  {
    hide RefusedEarly, EarlyRefusal;
    match step
    case RefuseEarly(_, response) => EarlyIsRefusal(response);
    case SeeClosed =>
    case Exhausted =>
    case Full =>
  }

  // Jobs that leave a queue.

  lemma JobStands(r: Record, s: State, cls: Class, i: nat)
    requires Timed(r, s) && i < |s.books.waiting.Of(cls)|
    ensures StandsFor(r, s.cfg, s.books.waiting.Of(cls)[i], cls)
  {
    hide StandsFor;
  }

  lemma ShrunkTimed(r: Record, s: State, r': Record, t: State, cls: Class, i: nat)
    requires Timed(r, s) && i < |s.books.waiting.Of(cls)| && t.cfg == s.cfg && r'.entries == r.entries
    requires t.books.waiting == s.books.waiting.With(cls, RemoveAt(s.books.waiting.Of(cls), i))
    ensures Timed(r', t)
  {
    hide Limit;
  }

  /** How the submission of a removed job ends. */
  function EndingOf(r: Removal, now: nat): Ending {
    match r.reason
    case Gone => LeftQueue
    case Expired => RanOut(now)
    case Refused => GatewayDropped
  }

  lemma RemovalNoted(r: Record, s: State, step: Step)
    requires Enabled(s, step) && TakesOut(step)
    ensures step.RejectOne? ==> s.books.waiting.Of(step.cls) != []
    ensures var x := RemovalOf(s, step);
            && Noted(r, s, step) == Ended(r, x.job.reply, EndingOf(x, s.now))
            && (x.reason.Expired? ==> x.job.Deadline() <= s.now) && (x.reason.Gone? ==> x.job.reply in s.departed)
  {
  }

  lemma RemovedAccounted(r: Record, s: State, x: Removal)
    requires Accounted(r, s) && Removable(s.books, x)
    ensures Accounted(Ended(r, x.job.reply, EndingOf(x, s.now)), Removed(s, x))
  {
    if x.reason.Gone? {
      assert s.books.answers + [] == s.books.answers;
    } else {
      assert Notice(x) == [Notice(x)[0]];
      ToldAppend(s.books.answers, Notice(x)[0]);
    }
    hide Told, RemoveAt, Release1;
  }

  lemma NoticeTells(cfg: Settings, x: Removal, now: nat)
    requires !x.reason.Gone?
    ensures Notice(x) == [Answer(x.job.reply, Notice(x)[0].response)]
    ensures Tells(cfg, EndingOf(x, now), Notice(x)[0].response)
  {
  }

  lemma RemovedTruthful(r: Record, s: State, x: Removal)
    requires Truthful(r, s.cfg, s.books.answers) && Removable(s.books, x) && x.job.reply !in r.endings
    ensures Truthful(Ended(r, x.job.reply, EndingOf(x, s.now)), s.cfg, Removed(s, x).books.answers)
  {
    var r' := Ended(r, x.job.reply, EndingOf(x, s.now));
    TruthfulLater(r, s.cfg, s.books.answers, x.job.reply, EndingOf(x, s.now));
    if x.reason.Gone? {
      assert s.books.answers + [] == s.books.answers;
    } else {
      NoticeTells(s.cfg, x, s.now);
      hide Tells, Truthful, Notice;
      TruthfulAppend(r', s.cfg, s.books.answers, Notice(x)[0]);
    }
  }

  lemma RemovedKept(r: Record, s: State, x: Removal)
    requires Kept(r, s) && Removable(s.books, x) && x.job.reply !in r.endings
    requires x.reason.Expired? ==> x.job.Deadline() <= s.now
    requires x.reason.Gone? ==> x.job.reply in r.left
    ensures Kept(Ended(r, x.job.reply, EndingOf(x, s.now)), Removed(s, x))
  {
    var c, ending, t := x.job.reply, EndingOf(x, s.now), Removed(s, x);
    var r' := Ended(r, c, ending);
    JobStands(r, s, x.cls, x.index);
    assert Justified(r, s.cfg, c, ending);
    assert Punctual(r', t) && Started(r', t);
    hide Tells, Justified, Timed, Punctual, Started, AllJustified, Truthful, OwedRan, Accounted, StandsFor, EndingOf;
    ShrunkTimed(r, s, r', t, x.cls, x.index);
    JustifiedLater(r, s.cfg, c, ending);
    OwedLater(r, s.settling, c, ending);
    TruthfulLater(r, s.cfg, s.settling, c, ending);
    RemovedTruthful(r, s, x);
    RemovedAccounted(r, s, x);
  }

  lemma WaitingNotEnded(r: Record, s: State, cls: Class, i: nat)
    requires Accounted(r, s) && OnePlace(s) && i < |s.books.waiting.Of(cls)|
    ensures s.books.waiting.Of(cls)[i].reply !in r.endings
  {
    QueuedIsUnanswered(s, cls, i);
    hide Everywhere, Told;
    NotEnded(r, s, s.books.waiting.Of(cls)[i].reply);
  }

  lemma TakesOutKept(r: Record, s: State, step: Step)
    requires Kept(r, s) && r.left == s.departed && OnePlace(s) && Enabled(s, step) && TakesOut(step)
    ensures Kept(Noted(r, s, step), Apply(s, step))
  {
    KeptAccounts(r, s);
    RemovalNoted(r, s, step);
    RemovalStep(s, step);
    hide Kept, Accounted, OnePlace, Noted, Enabled, Apply, Removed;
    var x := RemovalOf(s, step);
    WaitingNotEnded(r, s, x.cls, x.index);
    RemovedKept(r, s, x);
  }

  // Jobs that enter a queue or start to run.

  /** The step says nothing to anybody. */
  predicate Silent(s: State, t: State) {
    && t.cfg == s.cfg && t.books.answers == s.books.answers && t.settling == s.settling
    && t.history.gone == s.history.gone
  }

  lemma SilentKept(r: Record, s: State, r': Record, t: State)
    requires Kept(r, s) && Silent(s, t) && r'.endings == r.endings && r.left <= r'.left
    requires forall c | c in r.entries :: c in r'.entries && r'.entries[c] == r.entries[c]
    ensures AllJustified(r', t.cfg) && Truthful(r', t.cfg, t.books.answers) && Truthful(r', t.cfg, t.settling)
    ensures OwedRan(r', t.settling) && Accounted(r', t)
  {
    hide Timed, Punctual, Started, Tells, Told, Limit, EarlyRefusal;
  }

  lemma PushNoted(r: Record, s: State)
    requires OneFate(s) && Punctual(r, s) && Enabled(s, Push)
    ensures s.lock.Holding? && s.lock.caller !in r.entries && Silent(s, Pushed(s)) && Apply(s, Push) == Pushed(s)
    ensures Noted(r, s, Push) == r.(entries := r.entries[s.lock.caller := Entry(s.lock.key, s.now)])
    ensures Pushed(s).history.handoffs == s.history.handoffs
  {
  }

  lemma PushKept(r: Record, s: State)
    requires Kept(r, s) && OneFate(s) && Enabled(s, Push)
    ensures Kept(Noted(r, s, Push), Apply(s, Push))
  {
    PushNoted(r, s);
    var r', t := Noted(r, s, Push), Pushed(s);
    PushTimed(r, s);
    PushPunctual(r, s);
    assert Started(r', t);
    SilentKept(r, s, r', t);
    hide Timed, Punctual, Started, AllJustified, Truthful, OwedRan, Accounted, Noted, Apply, Pushed;
  }

  lemma PushTimed(r: Record, s: State)
    requires Timed(r, s) && s.lock.Holding? && s.lock.caller !in r.entries
    ensures Timed(r.(entries := r.entries[s.lock.caller := Entry(s.lock.key, s.now)]), Pushed(s))
  {
    assert StandsFor(r.(entries := r.entries[s.lock.caller := Entry(s.lock.key, s.now)]), s.cfg, Admitted(s),
                     s.lock.key.cls);
    assert forall job, cls | StandsFor(r, s.cfg, job, cls) ::
        StandsFor(r.(entries := r.entries[s.lock.caller := Entry(s.lock.key, s.now)]), s.cfg, job, cls);
    hide StandsFor, Admitted;
  }

  lemma PushPunctual(r: Record, s: State)
    requires Punctual(r, s) && s.lock.Holding? && s.lock.caller !in r.entries
    ensures Punctual(r.(entries := r.entries[s.lock.caller := Entry(s.lock.key, s.now)]), Pushed(s))
  {
  }

  lemma HandOffNoted(r: Record, s: State)
    requires Enabled(s, HandOff)
    ensures s.Select().Some? && Apply(s, HandOff) == HandedOff(s, s.Select().value)
    ensures var job := s.books.waiting.Of(s.Select().value)[0];
            && Noted(r, s, HandOff) == r.(starts := r.starts[job.reply := Start(s.now, job.reply !in r.left)])
            && job.Deadline() > s.now && job.reply !in s.departed
  {
    hide HandedOff;
  }

  lemma HandedWaits(r: Record, s: State, cls: Class)
    requires Timed(r, s) && Punctual(r, s) && Started(r, s) && s.books.waiting.Of(cls) != []
    requires s.books.waiting.Of(cls)[0].Deadline() > s.now
    ensures var r' := r.(starts := r.starts[s.books.waiting.Of(cls)[0].reply := Start(s.now, true)]);
            var t := HandedOff(s, cls);
            Timed(r', t) && Punctual(r', t) && Started(r', t) && Silent(s, t)
  {
    var job, t := s.books.waiting.Of(cls)[0], HandedOff(s, cls);
    var r' := r.(starts := r.starts[job.reply := Start(s.now, true)]);
    assert RemoveAt(s.books.waiting.Of(cls), 0) == s.books.waiting.Of(cls)[1..];
    JobStands(r, s, cls, 0);
    HandedAppend(s.history.handoffs, Handoff(job.reply, cls, job.order));
    ShrunkTimed(r, s, r', t, cls, 0);
    hide Timed, Limit, Handed, NextStreak, RemoveAt;
  }

  lemma HandOffKept(r: Record, s: State)
    requires Kept(r, s) && r.left == s.departed && Enabled(s, HandOff)
    ensures Kept(Noted(r, s, HandOff), Apply(s, HandOff))
  {
    HandOffNoted(r, s);
    var cls := s.Select().value;
    HandedWaits(r, s, cls);
    SilentKept(r, s, Noted(r, s, HandOff), HandedOff(s, cls));
    hide Timed, Punctual, Started, AllJustified, Truthful, OwedRan, Accounted, Noted, Apply, HandedOff, Enabled;
  }

  // Executions.

  lemma ExecutingNotEnded(r: Record, s: State, i: nat)
    requires Accounted(r, s) && OnePlace(s) && i < |s.executing|
    ensures s.executing[i].reply !in r.endings
  {
    CountPositive(s.executing, s.executing[i].reply);
    hide Count;
    NotEnded(r, s, s.executing[i].reply);
  }

  lemma CompleteNoted(r: Record, s: State, i: nat, e: Execution)
    requires i < |s.executing|
    ensures Noted(r, s, Complete(i, e)) == Ended(r, s.executing[i].reply, Ran(e))
    ensures var t := Apply(s, Complete(i, e));
            && t.settling == s.settling + [Answer(s.executing[i].reply, Execute(e, s.cfg.maxBody))]
            && SameWaits(s, t) && t.books.answers == s.books.answers && t.history == s.history && t.cfg == s.cfg
  {
    hide Execute, RemoveAt, Release1;
  }

  lemma CompleteKept(r: Record, s: State, i: nat, e: Execution)
    requires Kept(r, s) && OnePlace(s) && i < |s.executing|
    ensures Kept(Noted(r, s, Complete(i, e)), Apply(s, Complete(i, e)))
  {
    hide Apply, Noted, Execute, Outcome, SameWaits, OnePlace, Timed, Punctual, Started, AllJustified, Accounted;
    var c, t := s.executing[i].reply, Apply(s, Complete(i, e));
    var r', a := Ended(r, c, Ran(e)), Answer(c, Execute(e, s.cfg.maxBody));
    CompleteNoted(r, s, i, e);
    ExecutingNotEnded(r, s, i);
    ExecutionOutcome(e, s.cfg.maxBody);
    assert Tells(s.cfg, Ran(e), a.response) && Justified(r, s.cfg, c, Ran(e));
    hide Tells, Justified, Truthful;
    OwedAccounted(r, s, t, c, e, a.response);
    WaitsKept(r, s, r', t);
    JustifiedLater(r, s.cfg, c, Ran(e));
    OwedLater(r, s.settling, c, Ran(e));
    TruthfulLater(r, s.cfg, s.books.answers, c, Ran(e));
    TruthfulLater(r, s.cfg, s.settling, c, Ran(e));
    TruthfulAppend(r', s.cfg, s.settling, a);
  }

  lemma OwedAccounted(r: Record, s: State, t: State, c: nat, e: Execution, response: Response)
    requires Accounted(r, s) && t.books.answers == s.books.answers && t.history.gone == s.history.gone
    requires t.settling == s.settling + [Answer(c, response)]
    ensures Accounted(Ended(r, c, Ran(e)), t)
  {
    ToldAppend(s.settling, Answer(c, response));
    hide Told;
  }

  lemma ReplyNoted(r: Record, s: State, i: nat)
    requires i < |s.settling|
    ensures Noted(r, s, Reply(i)) == r
    ensures var t := Apply(s, Reply(i));
            && t.settling == RemoveAt(s.settling, i) && t.books.answers == s.books.answers + [s.settling[i]]
            && SameWaits(s, t) && t.history == s.history && t.cfg == s.cfg
  {
    hide RemoveAt;
  }

  lemma ReplyKept(r: Record, s: State, i: nat)
    requires Kept(r, s) && i < |s.settling|
    ensures Kept(Noted(r, s, Reply(i)), Apply(s, Reply(i)))
  {
    hide Apply, Noted, SameWaits, RemoveAt, Tells, Timed, Punctual, Started, AllJustified, Accounted;
    var t, a := Apply(s, Reply(i)), s.settling[i];
    ReplyNoted(r, s, i);
    RepliedAccounted(r, s, t, i);
    WaitsKept(r, s, r, t);
    TruthfulRemove(r, s.cfg, s.settling, i);
    assert a.caller in r.endings && Tells(s.cfg, r.endings[a.caller], a.response);
    hide Truthful, OwedRan;
    TruthfulAppend(r, s.cfg, s.books.answers, a);
  }

  lemma RepliedAccounted(r: Record, s: State, t: State, i: nat)
    requires Accounted(r, s) && i < |s.settling| && t.history == s.history
    requires t.settling == RemoveAt(s.settling, i) && t.books.answers == s.books.answers + [s.settling[i]]
    ensures Accounted(r, t)
  {
    ToldRemove(s.settling, i);
    ToldAppend(s.books.answers, s.settling[i]);
    hide Told, RemoveAt;
  }

  lemma LoseNoted(r: Record, s: State, i: nat)
    requires i < |s.executing|
    ensures Noted(r, s, Lose(i)) == Ended(r, s.executing[i].reply, TaskLost)
    ensures var t := Apply(s, Lose(i));
            && t.books.answers == s.books.answers + [Answer(s.executing[i].reply, LostReply())]
            && SameWaits(s, t) && t.settling == s.settling && t.history == s.history
    ensures Tells(s.cfg, TaskLost, LostReply())
  {
    hide RemoveAt, Release1;
  }

  lemma LoseKept(r: Record, s: State, i: nat)
    requires Kept(r, s) && OnePlace(s) && i < |s.executing|
    ensures Kept(Noted(r, s, Lose(i)), Apply(s, Lose(i)))
  {
    hide Apply, Noted, SameWaits, Tells, LostReply, OnePlace, Kept;
    var c, t := s.executing[i].reply, Apply(s, Lose(i));
    LoseNoted(r, s, i);
    KeptAccounts(r, s);
    ExecutingNotEnded(r, s, i);
    AnsweredKept(r, s, t, c, TaskLost, LostReply());
  }

  // The rest.

  /** Steps that neither answer, queue, start nor end anything. */
  predicate Unnoted(step: Step) {
    (!MovesCallers(step) && !step.Depart?) || step.Enter? || step.SeeOpen? || step.Acquire?
  }

  lemma UnnotedFrame(s: State, step: Step)
    requires Enabled(s, step) && Unnoted(step)
    ensures var t := Apply(s, step);
            SameWaits(s, t) && t.settling == s.settling && t.books.answers == s.books.answers && t.history == s.history
  {
    hide Apply, Enabled;
    ConfigStays(s, step);
    if !MovesCallers(step) {
      QuietCallers(s, step);
    } else {
      EntryFrame(s, step);
    }
  }

  lemma UnnotedKept(r: Record, s: State, step: Step)
    requires Kept(r, s) && Enabled(s, step) && Unnoted(step)
    ensures Noted(r, s, step) == r && Kept(r, Apply(s, step))
  {
    assert Noted(r, s, step) == r;
    UnnotedFrame(s, step);
    hide Apply, Enabled, Noted, Timed, Punctual, Started, AllJustified, Truthful, OwedRan, Told;
    WaitsKept(r, s, r, Apply(s, step));
  }

  lemma DepartKept(r: Record, s: State, callers: set<nat>)
    requires Kept(r, s)
    ensures Kept(Noted(r, s, Depart(callers)), Apply(s, Depart(callers)))
  {
    var r', t := r.(left := r.left + callers), s.(departed := s.departed + callers);
    WaitsKept(r, s, r', t);
    SilentKept(r, s, r', t);
    hide Timed, Punctual, Started, AllJustified, Truthful, OwedRan, Accounted;
  }

  lemma LeftStep(r: Record, s: State, step: Step)
    requires r.left == s.departed && Enabled(s, step)
    ensures Noted(r, s, step).left == Apply(s, step).departed
  {
    Kinds(step);
    if !step.Depart? {
      assert Noted(r, s, step).left == r.left;
      hide Noted;
      if ByTask(step) {
        TaskFrame(s, step);
        hide Apply, Enabled;
      } else if Refuses(step) {
        RefusalFrame(s, step);
        hide Apply, Enabled;
      } else if Enters(step) {
        EntryFrame(s, step);
        hide Apply, Enabled;
      } else if ByScheduler(step) {
        SchedulerFrame(s, step);
        hide Apply, Enabled;
      } else if TakesOut(step) {
        RemovalStep(s, step);
        hide Apply, Enabled, Removable;
      } else if step.HandOff? {
        HandOffEffect(s);
        hide Apply, Enabled;
      } else {
        DepartedStays(s, step);
        hide Apply, Enabled;
      }
    }
  }

  lemma DepartedStays(s: State, step: Step)
    requires Enabled(s, step) && (step.Push? || (Around(step) && !step.Depart?))
    ensures Apply(s, step).departed == s.departed
  {
    match step
    case Push =>
    case Tick(_) =>
    case Notify(_) =>
    case Close =>
    case Flag =>
    case SendAbort =>
    case RejectLock =>
    case RejectDone =>
  }

  lemma KeptStep(r: Record, s: State, step: Step)
    requires Kept(r, s) && r.left == s.departed && OnePlace(s) && OneFate(s) && Enabled(s, step)
    ensures Kept(Noted(r, s, step), Apply(s, step)) && Noted(r, s, step).left == Apply(s, step).departed
  {
    LeftStep(r, s, step);
    if step.Depart? {
      DepartKept(r, s, step.callers);
    } else if Unnoted(step) {
      UnnotedKept(r, s, step);
    } else if Turned(s, step).Some? {
      TurnedKept(r, s, step);
    } else if TakesOut(step) {
      TakesOutKept(r, s, step);
    } else if step.Push? {
      PushKept(r, s);
    } else if step.HandOff? {
      HandOffKept(r, s);
    } else if step.Complete? {
      CompleteKept(r, s, step.task, step.execution);
    } else if step.Reply? {
      ReplyKept(r, s, step.task);
    } else {
      LoseKept(r, s, step.task);
    }
    hide Kept, Apply, Noted, OnePlace, OneFate;
  }

  lemma {:induction false} RunKept(r: Record, s: State, steps: seq<Step>)
    requires Kept(r, s) && r.left == s.departed && Inv(s) && IsRun(s, steps)
    ensures Kept(Recorded(r, s, steps), After(s, steps)) && Inv(After(s, steps))
    decreases steps
  {
    if steps != [] {
      StepInv(s, steps[0]);
      assert OnePlace(s) && OneFate(s);
      hide Inv, Apply, Enabled, Kept, Noted, OnePlace, OneFate;
      KeptStep(r, s, steps[0]);
      RunKept(Noted(r, s, steps[0]), Apply(s, steps[0]), steps[1..]);
    }
  }

  // ---------- The guarantees ----------

  /** What the run noted, from a new gateway on. */
  ghost function RecordOf(cfg: Settings, maxima: map<Key, nat>, steps: seq<Step>): Record
    requires IsRun(Init(cfg, maxima), steps)
  {
    Recorded(BLANK, Init(cfg, maxima), steps)
  }

  lemma HistoryKept(cfg: Settings, maxima: map<Key, nat>, steps: seq<Step>)
    requires cfg.limit >= 1 && IsRun(Init(cfg, maxima), steps)
    ensures Kept(RecordOf(cfg, maxima, steps), After(Init(cfg, maxima), steps))
    ensures Reachable(After(Init(cfg, maxima), steps)) && After(Init(cfg, maxima), steps).cfg == cfg
  {
    InitInv(cfg, maxima);
    assert Kept(BLANK, Init(cfg, maxima));
    hide Kept, Inv;
    RunKept(BLANK, Init(cfg, maxima), steps);
    ConfigKept(Init(cfg, maxima), steps);
  }

  lemma {:induction false} ConfigKept(s: State, steps: seq<Step>)
    requires IsRun(s, steps)
    ensures After(s, steps).cfg == s.cfg
    decreases steps
  {
    if steps != [] {
      ConfigStays(s, steps[0]);
      hide Apply, Enabled;
      ConfigKept(Apply(s, steps[0]), steps[1..]);
    }
  }

  lemma TellsSuccess(cfg: Settings, ending: Ending, c: nat, r: Record, response: Response)
    requires Tells(cfg, ending, response) && Justified(r, cfg, c, ending)
    ensures IsSuccess(response.status) <==> ending.Ran? && Genuine(ending.execution, cfg.maxBody)
    ensures NotStarted(response) <==> !ending.Ran? && !ending.TaskLost?
  {
    match ending
    case Ran(e) => OutcomeClass(e, cfg.maxBody, response);
    case RefusedAtOnce(_) => RefusalClass(response);
    case _ =>
  }

  lemma RefusalClass(r: Response)
    requires EarlyRefusal(r)
    ensures NotStarted(r) && !IsSuccess(r.status)
  {
  }

  lemma OutcomeClass(e: Execution, maximum: nat, r: Response)
    requires Outcome(e, maximum, r)
    ensures IsSuccess(r.status) <==> Genuine(e, maximum)
    ensures !NotStarted(r)
  {
    SuccessIsGenuine(e, maximum);
    hide Execute;
    if !Genuine(e, maximum) {
      var f :| FailsFor(e, maximum, f) && Reports(r, f);
      hide FailsFor;
    } else {
      hide FailsFor, Reports;
    }
  }

  /** Whoever is answered is told exactly what happened to its submission, and what is told was so: a budget at its
      ceiling, a full queue, a wait as long as its class may, or its own execution. A success is told exactly for an
      execution of its own that was genuinely one. */
  lemma ToldWhatHappened(cfg: Settings, maxima: map<Key, nat>, steps: seq<Step>, a: Answer)
    requires cfg.limit >= 1 && IsRun(Init(cfg, maxima), steps) && a in After(Init(cfg, maxima), steps).books.answers
    ensures var r, s := RecordOf(cfg, maxima, steps), After(Init(cfg, maxima), steps);
            && a.caller in r.endings && Tells(cfg, r.endings[a.caller], a.response)
            && Justified(r, cfg, a.caller, r.endings[a.caller])
            && (IsSuccess(a.response.status) <==>
                r.endings[a.caller].Ran? && Genuine(r.endings[a.caller].execution, cfg.maxBody))
            && (Handed(s.history.handoffs, a.caller) > 0 <==>
                r.endings[a.caller].Ran? || r.endings[a.caller].TaskLost?)
  {
    var r, s := RecordOf(cfg, maxima, steps), After(Init(cfg, maxima), steps);
    HistoryKept(cfg, maxima, steps);
    var i :| 0 <= i < |s.books.answers| && s.books.answers[i] == a;
    hide Tells, Justified, RecordOf, Handed;
    var ending := r.endings[a.caller];
    TellsSuccess(cfg, ending, a.caller, r, a.response);
    AnswersFit(s, a);
    ClassifiersAgree(a.response);
    AfterIsNot(a.response);
    hide Kept, NotStarted, AfterHandOff;
  }

  lemma AfterIsNot(r: Response)
    ensures AfterHandOff(r) ==> !NotStarted(r)
  {
  }

  /** Whoever's submission has ended has its answer, unless it left before, or its execution has just ended and the
      answer is on its way. */
  lemma EndedIsTold(cfg: Settings, maxima: map<Key, nat>, steps: seq<Step>, c: nat)
    requires cfg.limit >= 1 && IsRun(Init(cfg, maxima), steps) && c in RecordOf(cfg, maxima, steps).endings
    ensures var r, s := RecordOf(cfg, maxima, steps), After(Init(cfg, maxima), steps);
            || (exists response :: Answer(c, response) in s.books.answers)
            || (r.endings[c].LeftQueue? && c in r.left)
            || (r.endings[c].Ran? && exists response :: Answer(c, response) in s.settling)
  {
    var r, s := RecordOf(cfg, maxima, steps), After(Init(cfg, maxima), steps);
    HistoryKept(cfg, maxima, steps);
    hide RecordOf, Tells;
    if Told(s.books.answers, c) > 0 {
      var a := ToldBy(s.books.answers, c);
    } else if Told(s.settling, c) > 0 {
      var a := ToldBy(s.settling, c);
    }
  }

  lemma ToldBy(answers: seq<Answer>, c: nat) returns (response: Response)
    requires Told(answers, c) > 0
    ensures Answer(c, response) in answers
  {
    var i :| 0 <= i < |answers| && Callers(answers)[i] == c;
    response := answers[i].response;
    assert answers[i] == Answer(c, response);
  }

  /** Every queued job holds a permit of its own class and waits exactly as long as that class may: its deadline is
      the reading of the clock at which it entered, plus the wait of its class. */
  lemma DeadlinesAreKept(cfg: Settings, maxima: map<Key, nat>, steps: seq<Step>, i: nat)
    requires cfg.limit >= 1 && IsRun(Init(cfg, maxima), steps)
    ensures var r, w := RecordOf(cfg, maxima, steps), After(Init(cfg, maxima), steps).books.waiting;
            && (i < |w.interactive| ==>
                  && w.interactive[i].reply in r.entries && w.interactive[i].permit.cls == Interactive
                  && r.entries[w.interactive[i].reply].key == w.interactive[i].permit
                  && w.interactive[i].acceptedAt == r.entries[w.interactive[i].reply].at
                  && w.interactive[i].maxWait == cfg.interactiveWait
                  && w.interactive[i].Deadline() == r.entries[w.interactive[i].reply].at + cfg.interactiveWait)
            && (i < |w.agents| ==>
                  && w.agents[i].reply in r.entries && w.agents[i].permit.cls == Agent
                  && r.entries[w.agents[i].reply].key == w.agents[i].permit
                  && w.agents[i].acceptedAt == r.entries[w.agents[i].reply].at
                  && w.agents[i].maxWait == cfg.agentWait
                  && w.agents[i].Deadline() == r.entries[w.agents[i].reply].at + cfg.agentWait)
  {
    var s := After(Init(cfg, maxima), steps);
    HistoryKept(cfg, maxima, steps);
    hide RecordOf;
    if i < |s.books.waiting.interactive| {
      JobStands(RecordOf(cfg, maxima, steps), s, Interactive, i);
    }
    if i < |s.books.waiting.agents| {
      JobStands(RecordOf(cfg, maxima, steps), s, Agent, i);
    }
    hide Kept;
  }

  /** Whoever was handed to an executor had entered a queue, was still there, and was handed over strictly before its
      limit. */
  lemma StartsInTime(cfg: Settings, maxima: map<Key, nat>, steps: seq<Step>, c: nat)
    requires cfg.limit >= 1 && IsRun(Init(cfg, maxima), steps)
    requires Handed(After(Init(cfg, maxima), steps).history.handoffs, c) > 0
    ensures var r := RecordOf(cfg, maxima, steps);
            && c in r.starts && c in r.entries
            && r.starts[c].present && r.starts[c].at < r.entries[c].at + match r.entries[c].key.cls
              case Agent => cfg.agentWait
              case Interactive => cfg.interactiveWait
  {
    HistoryKept(cfg, maxima, steps);
    hide RecordOf, Handed;
  }
}
