/** The shared local dispatcher (src/bin/dispatcher.rs): the lock that linearizes dispatch against deadline and
    disconnection, and the life of one request next to the gateway it is sent to. */
module Dispatching {
  import opened Wrappers
  import opened Text
  import opened Responses
  import opened Queueing
  import opened Retry
  import G = Gateway
  import opened GatewayEffects
  import opened GatewayTheorems
  import opened AtMostOnce

  // ---------- Progress ----------

  datatype ProgressState = ProgressState(attempts: nat, mayHaveExecuted: bool, closed: bool)

  function Begun(p: ProgressState): ProgressState {
    ProgressState(p.attempts + 1, true, p.closed)
  }

  /** The reply of `failure`: whether it says not started, and the attempts it reports. */
  datatype Failure = Failure(notStarted: bool, attempts: nat)

  function Reported(p: ProgressState): Failure {
    Failure(!p.mayHaveExecuted, p.attempts)
  }

  class Progress {
    var state: ProgressState

    constructor ()
      ensures state == ProgressState(0, false, false)
    {
      state := ProgressState(0, false, false);
    }

    /** Dispatch may begin only before closure and strictly before the deadline. */
    method Begin(deadline: nat, now: nat) returns (ok: bool)
      modifies this
      ensures ok <==> !old(state).closed && now < deadline
      ensures state == if ok then Begun(old(state)) else old(state)
    {
      if state.closed || now >= deadline {
        return false;
      }
      state := state.(attempts := state.attempts + 1);
      state := state.(mayHaveExecuted := true);
      ok := true;
    }

    /** Reporting a failure closes the request for good. */
    method Fail() returns (failure: Failure)
      modifies this
      ensures failure == Reported(old(state))
      ensures state == old(state).(closed := true)
    {
      state := state.(closed := true);
      failure := Failure(!state.mayHaveExecuted, state.attempts);
    }

    method Cancel()
      modifies this
      ensures state == old(state).(closed := true)
    {
      state := state.(closed := true);
    }

    /** An answer came back: one that is known not to have started clears the doubt. */
    method Settle(response: Response)
      modifies this
      ensures state == Settled(old(state), response)
    {
      if NotStarted(response) {
        state := state.(mayHaveExecuted := false);
      }
    }
  }

  function Settled(p: ProgressState, response: Response): ProgressState {
    if NotStarted(response) then p.(mayHaveExecuted := false) else p
  }

  // ---------- One request ----------

  /** How an attempt comes back to its job. */
  datatype Result = Got(response: Response) | NetworkError | TaskDeadline | Dropped

  /** Where the one outstanding attempt is: nowhere, in the queue or at the gate, on the wire as caller `caller`
      of the gateway, or back. */
  datatype Slot = Empty | Queued | Sending(caller: nat) | Back(result: Result)

  /** The retry loop of the request; `sent` counts the attempts it has queued. */
  datatype Job = Ready(sent: nat) | Awaiting(sent: nat) | Backoff(sent: nat) | Over

  /** `last` is the answer on which the loop ended, if it ended on one. */
  datatype Reply =
    | Success(attempts: nat, answer: Response)
    | Error(code: string, failure: Failure, last: Option<Response>)

  datatype Connection = Open | Informed(reply: Reply) | Disconnected

  /** The request next to the gateway. `begun` lists the gateway callers of its attempts, oldest first. */
  datatype State = State(
    gateway: G.State, progress: ProgressState, slot: Slot, job: Job, connection: Connection,
    begun: seq<nat>, deadline: nat)

  datatype Step =
    | Gateway(step: G.Step)
    | Send
    | QueueClosed
    | Begin(caller: nat)
    | Skip
    | ExecutorStops
    | Respond(answer: Answer)
    | NetworkFails
    | TaskAborted
    | Receive
    | Retry
    | Deadline
    | Disconnect
    | Cancel

  /** `failure` closes the request and replies; the job is dropped with its receiver. */
  function Failed(s: State, code: string, last: Option<Response>): State {
    s.(progress := s.progress.(closed := true), job := Over,
       connection := Informed(Error(code, Reported(s.progress), last)))
  }

  ghost predicate Enabled(s: State, step: Step) {
    match step
    case Gateway(step) => G.Enabled(s.gateway, step)
    case Send => s.job.Ready? && s.job.sent < MAX_ATTEMPTS && s.connection.Open?
    case QueueClosed => s.job.Ready? && s.connection.Open?
    case Begin(c) =>
      && s.slot.Queued? && !s.progress.closed && s.gateway.now < s.deadline
      && c !in s.gateway.seen && c !in s.begun
    case Skip => s.slot.Queued? && (s.progress.closed || s.deadline <= s.gateway.now || s.job.Over?)
    case ExecutorStops => s.slot.Queued?
    case Respond(a) => s.slot.Sending? && a in s.gateway.books.answers && a.caller == s.slot.caller
    case NetworkFails => s.slot.Sending?
    case TaskAborted => s.slot.Sending?
    case Receive => s.job.Awaiting? && s.slot.Back? && s.connection.Open?
    case Retry => s.job.Backoff? && s.connection.Open?
    case Deadline => s.connection.Open? && s.deadline <= s.gateway.now
    case Disconnect => s.connection.Open?
    case Cancel => !s.connection.Open?
  }

  function StatusError(r: Response): string {
    "Operation HTTP status " + Decimal(r.status)
  }

  function DelayError(): string {
    "Retry-After exceeds the client deadline"
  }

  /** The loop of the job receives the result of its attempt. */
  function Received(s: State): State
    requires s.job.Awaiting? && s.slot.Back?
  {
    var t := s.(slot := Empty);
    match s.slot.result
    case Got(r) =>
      if IsSuccess(r.status) then t.(job := Over, connection := Informed(Success(s.progress.attempts, r)))
      else if s.job.sent == MAX_ATTEMPTS || !SafeToRetry(r) then
        Failed(t, StatusError(r), Some(r))
      else if Seconds(r) > MAX_DELAY then Failed(t, DelayError(), Some(r))
      else t.(job := Backoff(s.job.sent))
    case NetworkError => Failed(t, "network_error", None)
    case TaskDeadline => Failed(t, "task_deadline", None)
    case Dropped => Failed(t, "dispatcher_stopped", None)
  }

  function Apply(s: State, step: Step): State
    requires Enabled(s, step)
  {
    match step
    case Gateway(step) => s.(gateway := G.Apply(s.gateway, step))
    case Send => s.(job := Awaiting(s.job.sent + 1), slot := Queued)
    case QueueClosed => Failed(s, "dispatcher_stopped", None)
    case Begin(c) => s.(progress := Begun(s.progress), slot := Sending(c), begun := s.begun + [c])
    case Skip => s.(slot := Back(TaskDeadline))
    case ExecutorStops => s.(slot := Back(Dropped))
    case Respond(a) => s.(progress := Settled(s.progress, a.response), slot := Back(Got(a.response)))
    case NetworkFails => s.(slot := Back(NetworkError))
    case TaskAborted => s.(slot := Back(Dropped))
    case Receive => Received(s)
    case Retry => s.(job := Ready(s.job.sent))
    case Deadline => Failed(s, "task_deadline", None)
    case Disconnect => s.(connection := Disconnected, job := Over)
    case Cancel => s.(progress := s.progress.(closed := true))
  }

  function Init(gateway: G.State, deadline: nat): State {
    State(gateway, ProgressState(0, false, false), Empty, Ready(0), Open, [], deadline)
  }

  ghost predicate IsRun(s: State, steps: seq<Step>)
    decreases steps
  {
    steps != [] ==> Enabled(s, steps[0]) && IsRun(Apply(s, steps[0]), steps[1..])
  }

  ghost function After(s: State, steps: seq<Step>): State
    requires IsRun(s, steps)
    decreases steps
  {
    if steps == [] then s else After(Apply(s, steps[0]), steps[1..])
  }

  // ---------- What every step keeps ----------

  /** The attempts the job may still count on: none is left once it has queued five. */
  predicate Counted(s: State) {
    && s.progress.attempts == |s.begun|
    && (!s.job.Over? ==> s.job.sent <= MAX_ATTEMPTS && |s.begun| <= s.job.sent)
    && (s.job.Awaiting? && s.slot.Queued? ==> |s.begun| < s.job.sent)
    && (s.job.Over? ==> |s.begun| <= MAX_ATTEMPTS)
    && (s.slot.Queued? ==> |s.begun| < MAX_ATTEMPTS)
    && (s.job.Ready? || s.job.Backoff? ==> s.slot.Empty?)
  }

  /** Every attempt but the last is cleared, and the last one too unless it may have executed. */
  ghost predicate Certain(s: State) {
    && (forall i | 0 <= i < |s.begun| && (!s.progress.mayHaveExecuted || i < |s.begun| - 1) ::
          Cleared(s.gateway, s.begun[i]))
    && (forall i, j | 0 <= i < j < |s.begun| :: s.begun[i] != s.begun[j])
    && (s.slot.Queued? || s.job.Ready? || s.job.Backoff? ==> !s.progress.mayHaveExecuted)
    && (s.slot.Sending? ==> s.begun != [] && s.begun[|s.begun| - 1] == s.slot.caller)
    && (s.job.Awaiting? && s.slot.Back? && s.slot.result.Got? && NotStarted(s.slot.result.response) ==>
          !s.progress.mayHaveExecuted)
  }

  /** A reply repeats what the lock holds, and it stays true. */
  predicate Faithful(s: State) {
    && (s.connection.Informed? && s.connection.reply.Error? ==>
          s.progress.closed && s.connection.reply.failure.attempts == s.progress.attempts
          && (s.connection.reply.failure.notStarted ==> !s.progress.mayHaveExecuted))
    && (s.connection.Informed? && s.connection.reply.Success? ==>
          s.slot.Empty? && s.connection.reply.attempts == s.progress.attempts)
    && (!s.connection.Open? ==> s.job.Over?)
    && (s.connection.Open? ==> !s.job.Over?)
  }

  ghost predicate Inv(s: State) {
    Counted(s) && Certain(s) && Faithful(s)
  }

  lemma ClearedStays(g: G.State, step: G.Step, c: nat)
    requires G.Enabled(g, step) && Cleared(g, c)
    ensures Cleared(G.Apply(g, step), c)
  {
    ConfigStays(g, step);
    var a :| a in g.books.answers && a.caller == c && NotStarted(a.response);
    assert a in G.Apply(g, step).books.answers;
  }

  lemma GatewayStepKeeps(s: State, step: G.Step)
    requires Inv(s) && G.Enabled(s.gateway, step)
    ensures Inv(s.(gateway := G.Apply(s.gateway, step)))
  {
    hide G.Enabled, G.Apply;
    forall i | 0 <= i < |s.begun| && Cleared(s.gateway, s.begun[i])
      ensures Cleared(G.Apply(s.gateway, step), s.begun[i])
    {
      ClearedStays(s.gateway, step, s.begun[i]);
    }
    hide Cleared;
  }

  /** The attempt goes on, on its way or back. */
  predicate OnWire(step: Step) {
    step.Begin? || step.Skip? || step.ExecutorStops? || step.Respond? || step.NetworkFails? || step.TaskAborted?
  }

  lemma WireKeeps(s: State, step: Step)
    requires Inv(s) && Enabled(s, step) && OnWire(step)
    ensures Inv(Apply(s, step))
  {
    hide G.Enabled, G.Apply, NotStarted, Cleared;
    match step
    case Begin(_) =>
    case Skip =>
    case ExecutorStops =>
    case NetworkFails =>
    case TaskAborted =>
    case Respond(a) => RespondKeeps(s, a);
  }

  lemma RespondKeeps(s: State, a: Answer)
    requires Inv(s) && Enabled(s, Respond(a))
    ensures Inv(Apply(s, Respond(a)))
  {
    assert NotStarted(a.response) ==> Cleared(s.gateway, a.caller);
    hide Cleared, NotStarted;
  }

  lemma LoopKeeps(s: State, step: Step)
    requires Inv(s) && Enabled(s, step) && !OnWire(step) && !step.Gateway? && !step.Receive?
    ensures Inv(Apply(s, step))
  {
    hide Cleared;
    match step
    case Send =>
    case Retry =>
    case Disconnect =>
    case Cancel =>
    case QueueClosed => FailedKeeps(s);
    case Deadline => FailedKeeps(s);
  }

  lemma StepInv(s: State, step: Step)
    requires Inv(s) && Enabled(s, step)
    ensures Inv(Apply(s, step))
  {
    hide Inv, G.Enabled, G.Apply;
    if step.Gateway? {
      GatewayStepKeeps(s, step.step);
    } else if step.Receive? {
      ReceiveKeeps(s);
    } else if OnWire(step) {
      WireKeeps(s, step);
      hide Apply, Enabled;
    } else {
      LoopKeeps(s, step);
      hide Apply, Enabled;
    }
  }

  lemma FailedKeeps(s: State)
    requires Inv(s) && s.connection.Open?
    ensures forall code, last :: Inv(Failed(s, code, last))
  {
    hide Cleared, NotStarted;
  }

  lemma TakenKeeps(s: State)
    requires Inv(s) && s.job.Awaiting? && s.slot.Back?
    ensures Inv(s.(slot := Empty))
  {
    hide Cleared, NotStarted;
  }

  lemma GotKeeps(s: State)
    requires Inv(s) && s.job.Awaiting? && s.slot.Empty? && s.connection.Open?
    ensures forall r :: Inv(s.(job := Over, connection := Informed(Success(s.progress.attempts, r))))
    ensures !s.progress.mayHaveExecuted ==> Inv(s.(job := Backoff(s.job.sent)))
  {
    hide Cleared, NotStarted;
  }

  /** The three things that a received result can do. */
  lemma ReceivedIs(s: State)
    requires s.job.Awaiting? && s.slot.Back?
    ensures var t := s.(slot := Empty);
            || (exists code, last :: Received(s) == Failed(t, code, last))
            || (exists r :: Received(s) == t.(job := Over, connection := Informed(Success(s.progress.attempts, r))))
            || (s.slot.result.Got? && SafeToRetry(s.slot.result.response)
                && Received(s) == t.(job := Backoff(s.job.sent)))
  {
    hide SafeToRetry, Seconds, StatusError, DelayError, Failed;
    var t := s.(slot := Empty);
    match s.slot.result
    case NetworkError => assert Received(s) == Failed(t, "network_error", None);
    case TaskDeadline => assert Received(s) == Failed(t, "task_deadline", None);
    case Dropped => assert Received(s) == Failed(t, "dispatcher_stopped", None);
    case Got(r) =>
      if IsSuccess(r.status) {
        assert Received(s) == t.(job := Over, connection := Informed(Success(s.progress.attempts, r)));
      } else if s.job.sent == MAX_ATTEMPTS || !SafeToRetry(r) {
        assert Received(s) == Failed(t, StatusError(r), Some(r));
      } else if Seconds(r) > MAX_DELAY {
        assert Received(s) == Failed(t, DelayError(), Some(r));
      }
  }

  lemma ReceiveKeeps(s: State)
    requires Inv(s) && Enabled(s, Receive)
    ensures Inv(Received(s))
  {
    var t := s.(slot := Empty);
    if s.slot.result.Got? {
      ClassifiersAgree(s.slot.result.response);
    }
    hide Received, Failed, Cleared, NotStarted, SafeToRetry;
    ReceivedIs(s);
    TakenKeeps(s);
    FailedKeeps(t);
    GotKeeps(t);
    assert s.slot.result.Got? && SafeToRetry(s.slot.result.response) ==> !s.progress.mayHaveExecuted;
    hide Inv;
  }

  lemma {:induction false} RunInv(s: State, steps: seq<Step>)
    requires Inv(s) && IsRun(s, steps)
    ensures Inv(After(s, steps))
    decreases steps
  {
    if steps != [] {
      StepInv(s, steps[0]);
      hide Inv, Enabled, Apply;
      RunInv(Apply(s, steps[0]), steps[1..]);
    }
  }

  lemma {:induction false} GatewayReachable(s: State, steps: seq<Step>)
    requires Reachable(s.gateway) && IsRun(s, steps)
    ensures Reachable(After(s, steps).gateway)
    decreases steps
  {
    if steps != [] {
      if steps[0].Gateway? {
        OneStep(s.gateway, steps[0].step);
        ReachableOn(s.gateway, [steps[0].step]);
      }
      hide Reachable, G.Enabled, G.Apply;
      GatewayReachable(Apply(s, steps[0]), steps[1..]);
    }
  }

  // ---------- The guarantees ----------

  lemma InitInv(gateway: G.State, deadline: nat)
    ensures Inv(Init(gateway, deadline))
  {
  }

  /** The reported number of attempts is the number of successful dispatches, at most five. */
  lemma AttemptsAreDispatches(gateway: G.State, deadline: nat, steps: seq<Step>)
    requires Reachable(gateway) && IsRun(Init(gateway, deadline), steps)
    ensures var s := After(Init(gateway, deadline), steps);
            && |s.begun| <= MAX_ATTEMPTS
            && (s.connection.Informed? ==>
                  |s.begun| == match s.connection.reply case Success(n, _) => n case Error(_, f, _) => f.attempts)
  {
    InitInv(gateway, deadline);
    RunInv(Init(gateway, deadline), steps);
    hide IsRun, After, Certain;
  }

  lemma ClosedStep(s: State, step: Step)
    requires Inv(s) && s.progress.closed && Enabled(s, step)
    ensures Apply(s, step).progress.closed && Apply(s, step).begun == s.begun
  {
    hide G.Enabled, G.Apply, Certain, NotStarted, SafeToRetry, Seconds, StatusError, DelayError;
  }

  /** After closure nothing more is dispatched. */
  lemma {:induction false} ClosedForGood(s: State, steps: seq<Step>)
    requires Inv(s) && s.progress.closed && IsRun(s, steps)
    ensures After(s, steps).begun == s.begun
    decreases steps
  {
    if steps != [] {
      StepInv(s, steps[0]);
      ClosedStep(s, steps[0]);
      hide Inv, Enabled, Apply;
      ClosedForGood(Apply(s, steps[0]), steps[1..]);
    }
  }

  /** The gateway steps among the steps of a run. */
  function Projected(steps: seq<Step>): seq<G.Step> {
    if steps == [] then []
    else (if steps[0].Gateway? then [steps[0].step] else []) + Projected(steps[1..])
  }

  lemma {:induction false} ProjectedRun(s: State, steps: seq<Step>)
    requires IsRun(s, steps)
    ensures G.IsRun(s.gateway, Projected(steps))
    ensures G.After(s.gateway, Projected(steps)) == After(s, steps).gateway
    decreases steps
  {
    if steps != [] {
      var next := Apply(s, steps[0]);
      assert steps[0].Gateway? ==>
               G.Enabled(s.gateway, steps[0].step) && next.gateway == G.Apply(s.gateway, steps[0].step);
      assert !steps[0].Gateway? ==> next.gateway == s.gateway;
      hide G.Enabled, G.Apply, Enabled, Apply;
      ProjectedRun(next, steps[1..]);
      if steps[0].Gateway? {
        assert Projected(steps)[1..] == Projected(steps[1..]);
      } else {
        assert Projected(steps) == Projected(steps[1..]);
      }
    }
  }

  /** A reply that says not started is never a lie: no attempt of the request has been executed, none is executed
      in any later state, and none is dispatched any more, under every interleaving of deadline, disconnection,
      dispatch and late answers. */
  lemma NotStartedIsTrue(gateway: G.State, deadline: nat, steps: seq<Step>, more: seq<Step>)
    requires Reachable(gateway) && IsRun(Init(gateway, deadline), steps)
    requires var s := After(Init(gateway, deadline), steps);
             && IsRun(s, more) && s.connection.Informed?
             && s.connection.reply.Error? && s.connection.reply.failure.notStarted
    ensures var s := After(Init(gateway, deadline), steps);
            After(s, more).begun == s.begun && Executions(After(s, more).gateway, s.begun) == 0
  {
    var s := After(Init(gateway, deadline), steps);
    InitInv(gateway, deadline);
    RunInv(Init(gateway, deadline), steps);
    GatewayReachable(Init(gateway, deadline), steps);
    ClosedForGood(s, more);
    ProjectedRun(s, more);
    hide Cleared;
    AllCleared(s.gateway, Projected(more), s.begun);
  }

  /** At most one attempt of a request is ever executed, whatever its fate. */
  lemma RequestExecutesAtMostOnce(gateway: G.State, deadline: nat, steps: seq<Step>)
    requires Reachable(gateway) && IsRun(Init(gateway, deadline), steps)
    ensures var s := After(Init(gateway, deadline), steps); Executions(s.gateway, s.begun) <= 1
  {
    var s := After(Init(gateway, deadline), steps);
    InitInv(gateway, deadline);
    RunInv(Init(gateway, deadline), steps);
    GatewayReachable(Init(gateway, deadline), steps);
    hide Cleared;
    AllButLastCleared(s.gateway, [], s.begun);
  }
}
