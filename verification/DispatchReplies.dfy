/** What the dispatcher replies over whole runs, and when it goes on: a reply is a success exactly when the last attempt
    was received as one, and every failure is reported with its cause, its attempts and what is known of them. */
module DispatchReplies {
  import opened Wrappers
  import opened Text
  import opened Responses
  import opened Queueing
  import opened Retry
  import T = GatewayTheorems
  import opened AtMostOnce
  import opened Dispatching

  // ---------- What a run shows ----------

  /** The attempts that an answer, come back over the wire, showed not to have started. */
  function Shown(known: set<nat>, steps: seq<Step>): set<nat>
    decreases steps
  {
    if steps == [] then known else Shown(ShownBy(known, steps[0]), steps[1..])
  }

  function ShownBy(known: set<nat>, step: Step): set<nat> {
    if step.Respond? && NotStarted(step.answer.response) then known + {step.answer.caller} else known
  }

  function Last(callers: seq<nat>): nat
    requires callers != []
  {
    callers[|callers| - 1]
  }

  /** An answer that is back is the gateway's answer to the last attempt, and the doubt is about that attempt alone. */
  ghost predicate Traced(s: State, known: set<nat>) {
    && (s.slot.Back? && s.slot.result.Got? ==>
          s.begun != [] && Answer(Last(s.begun), s.slot.result.response) in s.gateway.books.answers)
    && (!s.progress.mayHaveExecuted <==> s.begun == [] || Last(s.begun) in known)
    && (forall c | c in known :: c in s.begun)
  }

  lemma TracedStep(s: State, step: Step, known: set<nat>)
    requires Inv(s) && Traced(s, known) && Enabled(s, step)
    ensures Traced(Apply(s, step), ShownBy(known, step))
  {
    if step.Gateway? {
      GatewayTraced(s, step.step, known);
      GatewayStep(s, step.step);
      hide Inv, Traced, Apply, Enabled;
    } else if OnWire(step) {
      WireTraced(s, step, known);
      hide Inv, Traced, Apply, Enabled;
    } else {
      LoopTraced(s, step, known);
      hide Inv, Traced, Apply, Enabled;
    }
  }

  lemma WireTraced(s: State, step: Step, known: set<nat>)
    requires Inv(s) && Traced(s, known) && Enabled(s, step) && OnWire(step)
    ensures Traced(Apply(s, step), ShownBy(known, step))
  {
    hide G.Enabled, G.Apply, Cleared, NotStarted;
    match step
    case Begin(_) =>
    case Skip =>
    case ExecutorStops =>
    case NetworkFails =>
    case TaskAborted =>
    case Respond(_) =>
  }

  /** The loop dispatches nothing and learns nothing of what was dispatched. */
  lemma LoopTraced(s: State, step: Step, known: set<nat>)
    requires Traced(s, known) && Enabled(s, step) && !OnWire(step) && !step.Gateway?
    ensures Traced(Apply(s, step), ShownBy(known, step))
  {
    hide NotStarted;
    match step
    case Send =>
    case Retry =>
    case Disconnect =>
    case Cancel =>
    case QueueClosed =>
    case Deadline =>
    case Receive =>
      ReceivedIs(s);
      hide Received;
  }

  lemma GatewayStep(s: State, step: G.Step)
    requires Enabled(s, Step.Gateway(step))
    ensures Apply(s, Step.Gateway(step)) == s.(gateway := G.Apply(s.gateway, step)) && G.Enabled(s.gateway, step)
  {
  }

  lemma GatewayTraced(s: State, step: G.Step, known: set<nat>)
    requires Traced(s, known) && G.Enabled(s.gateway, step)
    ensures Traced(s.(gateway := G.Apply(s.gateway, step)), known)
  {
    GatewayEffects.ConfigStays(s.gateway, step);
    hide G.Enabled, G.Apply;
  }

  // ---------- Runs and where they stand ----------

  /** Every step of a run is taken in the state that the steps before it lead to. */
  lemma {:induction false} RunAt(s: State, known: set<nat>, steps: seq<Step>, i: nat)
    requires Inv(s) && Traced(s, known) && IsRun(s, steps) && i < |steps|
    ensures IsRun(s, steps[..i])
    ensures var p := After(s, steps[..i]);
            && Enabled(p, steps[i]) && Inv(p) && Traced(p, Shown(known, steps[..i]))
            && IsRun(Apply(p, steps[i]), steps[i + 1..])
            && After(Apply(p, steps[i]), steps[i + 1..]) == After(s, steps)
    decreases i
  {
    if i > 0 {
      var rest := steps[1..];
      StepInv(s, steps[0]);
      TracedStep(s, steps[0], known);
      hide Inv, Enabled, Apply, Traced, ShownBy;
      RunAt(Apply(s, steps[0]), ShownBy(known, steps[0]), rest, i - 1);
      assert steps[..i][1..] == rest[..i - 1] && rest[i - 1] == steps[i] && rest[i..] == steps[i + 1..];
    } else {
      assert steps[..0] == [];
    }
  }

  lemma EndedStep(s: State, step: Step)
    requires Inv(s) && Enabled(s, step) && !s.connection.Open?
    ensures Apply(s, step).connection == s.connection
    ensures s.connection.Informed? ==> Apply(s, step).begun == s.begun
  {
    hide G.Enabled, G.Apply, Certain, NotStarted;
  }

  /** What was replied stays, and nothing is dispatched after it. */
  lemma {:induction false} EndedStays(s: State, steps: seq<Step>)
    requires Inv(s) && IsRun(s, steps) && !s.connection.Open?
    ensures After(s, steps).connection == s.connection
    ensures s.connection.Informed? ==> After(s, steps).begun == s.begun
    decreases steps
  {
    if steps != [] {
      EndedStep(s, steps[0]);
      StepInv(s, steps[0]);
      hide Inv, Enabled, Apply;
      EndedStays(Apply(s, steps[0]), steps[1..]);
    }
  }

  /** The step of a run that informed the caller. */
  lemma {:induction false} InformedBy(s: State, steps: seq<Step>) returns (i: nat)
    requires Inv(s) && IsRun(s, steps) && s.connection.Open? && After(s, steps).connection.Informed?
    ensures i < |steps| && IsRun(s, steps[..i]) && After(s, steps[..i]).connection.Open?
    ensures Enabled(After(s, steps[..i]), steps[i])
    ensures Apply(After(s, steps[..i]), steps[i]).connection == After(s, steps).connection
    ensures Apply(After(s, steps[..i]), steps[i]).begun == After(s, steps).begun
    decreases steps
  {
    var t, rest := Apply(s, steps[0]), steps[1..];
    StepInv(s, steps[0]);
    hide Inv, Enabled, Apply;
    if t.connection.Open? {
      var k := InformedBy(t, rest);
      i := k + 1;
      assert steps[..i][1..] == rest[..k];
    } else {
      EndedStays(t, rest);
      i := 0;
      assert steps[..0] == [];
    }
  }

  // ---------- What a reply means ----------

  /** An error reply with this cause repeats how many attempts were dispatched, and says not started exactly when the
      last of them, so each of them, is known not to have started. */
  predicate Fails(p: State, known: set<nat>, reply: Reply, code: string, last: Option<Response>) {
    && reply.Error? && reply.code == code && reply.last == last && reply.failure.attempts == |p.begun|
    && (reply.failure.notStarted <==> p.begun == [] || Last(p.begun) in known)
  }

  /** The answer on which the loop gives up, and why. */
  predicate GivesUpOn(p: State, known: set<nat>, reply: Reply, r: Response) {
    && p.job.Awaiting? && !IsSuccess(r.status)
    && (if p.job.sent == 5 || !SafeToRetry(r)
        then Fails(p, known, reply, "Operation HTTP status " + Decimal(r.status), Some(r))
        else Seconds(r) > 86400 && Fails(p, known, reply, "Retry-After exceeds the client deadline", Some(r)))
  }

  /** What was the case in state `p` when `step` informed the caller so. */
  ghost predicate Explains(p: State, known: set<nat>, step: Step, reply: Reply) {
    match step
    case Deadline => p.deadline <= p.gateway.now && Fails(p, known, reply, "task_deadline", None)
    case QueueClosed => Fails(p, known, reply, "dispatcher_stopped", None)
    case Receive =>
      && p.slot.Back?
      && (match p.slot.result
          case Got(r) =>
            && p.begun != [] && Answer(Last(p.begun), r) in p.gateway.books.answers
            && (if 200 <= r.status < 300 then reply == Success(|p.begun|, r) else GivesUpOn(p, known, reply, r))
          case NetworkError => Fails(p, known, reply, "network_error", None)
          case TaskDeadline => Fails(p, known, reply, "task_deadline", None)
          case Dropped => Fails(p, known, reply, "dispatcher_stopped", None))
    case _ => false
  }

  lemma InformingStep(p: State, known: set<nat>, step: Step)
    requires Inv(p) && Traced(p, known) && Enabled(p, step)
    requires p.connection.Open? && Apply(p, step).connection.Informed?
    ensures Explains(p, known, step, Apply(p, step).connection.reply)
    ensures Apply(p, step).begun == p.begun
  {
    hide G.Enabled, G.Apply, Certain, Cleared, SafeToRetry, Seconds, Decimal;
  }

  /** Every reply is explained by the step that gave it and the state it was given in. */
  lemma ReplyIsExplained(gateway: G.State, deadline: nat, steps: seq<Step>) returns (i: nat)
    requires IsRun(Init(gateway, deadline), steps) && After(Init(gateway, deadline), steps).connection.Informed?
    ensures i < |steps| && IsRun(Init(gateway, deadline), steps[..i])
    ensures var s, p := After(Init(gateway, deadline), steps), After(Init(gateway, deadline), steps[..i]);
            && p.connection.Open? && p.begun == s.begun
            && Explains(p, Shown({}, steps[..i]), steps[i], s.connection.reply)
  {
    var start := Init(gateway, deadline);
    InitInv(gateway, deadline);
    assert Traced(start, {});
    i := InformedBy(start, steps);
    RunAt(start, {}, steps, i);
    hide Inv, Traced, Explains, Enabled, Apply;
    InformingStep(After(start, steps[..i]), Shown({}, steps[..i]), steps[i]);
  }

  /** Step `i` of the run receives a success while the caller is still connected and uninformed. */
  ghost predicate Succeeds(s: State, steps: seq<Step>, i: nat, r: Response)
    requires i < |steps|
  {
    && IsRun(s, steps[..i]) && steps[i] == Receive && 200 <= r.status < 300
    && After(s, steps[..i]).connection.Open? && After(s, steps[..i]).slot == Back(Got(r))
  }

  /** The reply is a success exactly when an attempt was received as one, and it carries that answer. It is the answer
      of the gateway to the last attempt, which then is the one attempt that was ever executed. */
  lemma SuccessIsReceived(gateway: G.State, deadline: nat, steps: seq<Step>, r: Response)
    requires T.Reachable(gateway) && IsRun(Init(gateway, deadline), steps)
    ensures var s := After(Init(gateway, deadline), steps);
            && (s.connection == Informed(Success(|s.begun|, r)) <==>
                exists i | 0 <= i < |steps| :: Succeeds(Init(gateway, deadline), steps, i, r))
            && (s.connection.Informed? && s.connection.reply.Success? ==>
                  && s.connection.reply.attempts == |s.begun| > 0
                  && Answer(Last(s.begun), s.connection.reply.answer) in s.gateway.books.answers
                  && Executions(s.gateway, s.begun) == 1)
  {
    var start := Init(gateway, deadline);
    var s := After(start, steps);
    if s.connection.Informed? && s.connection.reply.Success? {
      var i := ReplyIsExplained(gateway, deadline, steps);
      assert Succeeds(start, steps, i, s.connection.reply.answer);
      SuccessIsExecuted(gateway, deadline, steps, i);
    }
    forall i | 0 <= i < |steps| && Succeeds(start, steps, i, r)
      ensures s.connection == Informed(Success(|s.begun|, r))
    {
      ReceivedIsReplied(gateway, deadline, steps, i, r);
    }
  }

  lemma ReceivedIsReplied(gateway: G.State, deadline: nat, steps: seq<Step>, i: nat, r: Response)
    requires IsRun(Init(gateway, deadline), steps) && i < |steps| && Succeeds(Init(gateway, deadline), steps, i, r)
    ensures var s := After(Init(gateway, deadline), steps); s.connection == Informed(Success(|s.begun|, r))
  {
    var start := Init(gateway, deadline);
    InitInv(gateway, deadline);
    assert Traced(start, {});
    RunAt(start, {}, steps, i);
    var p := After(start, steps[..i]);
    StepInv(p, Receive);
    assert Apply(p, Receive).connection == Informed(Success(|p.begun|, r)) && Apply(p, Receive).begun == p.begun;
    hide Inv, Apply, Enabled;
    EndedStays(Apply(p, Receive), steps[i + 1..]);
  }

  lemma AnswersKept(s: State, steps: seq<Step>, a: Answer)
    requires IsRun(s, steps) && a in s.gateway.books.answers
    ensures a in After(s, steps).gateway.books.answers
  {
    ProjectedRun(s, steps);
    T.AnswersStay(s.gateway, Projected(steps), a);
  }

  lemma SuccessIsExecuted(gateway: G.State, deadline: nat, steps: seq<Step>, i: nat)
    requires T.Reachable(gateway) && IsRun(Init(gateway, deadline), steps) && i < |steps|
    requires IsRun(Init(gateway, deadline), steps[..i])
    requires var s, p := After(Init(gateway, deadline), steps), After(Init(gateway, deadline), steps[..i]);
             && s.connection.Informed? && s.connection.reply.Success? && p.begun == s.begun != []
             && Answer(Last(s.begun), s.connection.reply.answer) in p.gateway.books.answers
             && IsSuccess(s.connection.reply.answer.status)
    ensures var s := After(Init(gateway, deadline), steps);
            && Answer(Last(s.begun), s.connection.reply.answer) in s.gateway.books.answers
            && Executions(s.gateway, s.begun) == 1
  {
    var start := Init(gateway, deadline);
    var s := After(start, steps);
    InitInv(gateway, deadline);
    assert Traced(start, {});
    hide Inv, Traced, Enabled, Apply, T.Reachable, IsRun, After, G.IsRun, G.After;
    RunAt(start, {}, steps, i);
    RunOn(After(start, steps[..i]), steps, i);
    AnswersKept(After(start, steps[..i]), steps[i..], Answer(Last(s.begun), s.connection.reply.answer));
    GatewayReachable(start, steps);
    RequestExecutesAtMostOnce(gateway, deadline, steps);
    ExecutedOnce(s.gateway, s.begun, s.connection.reply.answer);
  }

  lemma ExecutedOnce(g: G.State, callers: seq<nat>, answer: Response)
    requires T.Reachable(g) && callers != [] && Executions(g, callers) <= 1
    requires Answer(Last(callers), answer) in g.books.answers && IsSuccess(answer.status)
    ensures Executions(g, callers) == 1
  {
    assert G.IsRun(g, []) && G.After(g, []) == g;
    hide T.Reachable, G.IsRun, G.After;
    SuccessMeansExecuted(g, [], Last(callers), answer);
  }

  lemma RunOn(p: State, steps: seq<Step>, i: nat)
    requires i < |steps| && Enabled(p, steps[i]) && IsRun(Apply(p, steps[i]), steps[i + 1..])
    ensures IsRun(p, steps[i..]) && After(p, steps[i..]) == After(Apply(p, steps[i]), steps[i + 1..])
  {
    assert steps[i..][1..] == steps[i + 1..];
  }

  /** Every dispatch of a run happens at a reading of the clock strictly before the deadline, and while the request is
      still open. */
  lemma DispatchedInTime(gateway: G.State, deadline: nat, steps: seq<Step>, i: nat)
    requires IsRun(Init(gateway, deadline), steps) && i < |steps| && steps[i].Begin?
    ensures IsRun(Init(gateway, deadline), steps[..i])
    ensures var p := After(Init(gateway, deadline), steps[..i]); p.gateway.now < deadline && !p.progress.closed
  {
    InitInv(gateway, deadline);
    assert Traced(Init(gateway, deadline), {});
    hide Inv, Traced, IsRun, After;
    RunAt(Init(gateway, deadline), {}, steps, i);
    DeadlineStays(Init(gateway, deadline), steps[..i]);
    BeginsInTime(After(Init(gateway, deadline), steps[..i]), steps[i]);
    hide Enabled;
  }

  lemma BeginsInTime(p: State, step: Step)
    requires Enabled(p, step) && step.Begin?
    ensures p.gateway.now < p.deadline && !p.progress.closed
  {
  }

  lemma {:induction false} DeadlineStays(s: State, steps: seq<Step>)
    requires IsRun(s, steps)
    ensures After(s, steps).deadline == s.deadline
    decreases steps
  {
    if steps != [] {
      hide G.Apply, G.Enabled;
      DeadlineStays(Apply(s, steps[0]), steps[1..]);
    }
  }

  // ---------- When the loop goes on ----------

  /** The answer may be followed by another attempt. */
  predicate MayRetry(s: State) {
    && s.job.Awaiting? && s.connection.Open? && s.slot.Back? && s.slot.result.Got?
    && s.job.sent < 5 && SafeToRetry(s.slot.result.response) && Seconds(s.slot.result.response) <= 86400
  }

  /** Nothing ends the request, and no further attempt is queued. */
  predicate Undisturbed(steps: seq<Step>) {
    forall i | 0 <= i < |steps| ::
      !steps[i].Deadline? && !steps[i].Disconnect? && !steps[i].QueueClosed? && !steps[i].Send?
  }

  predicate Between(s: State, sent: nat) {
    s.connection.Open? && s.slot.Empty? && (s.job == Backoff(sent) || s.job == Ready(sent))
  }

  lemma BetweenStep(s: State, step: Step, sent: nat)
    requires Between(s, sent) && Enabled(s, step) && Undisturbed([step])
    ensures Between(Apply(s, step), sent)
  {
    assert [step][0] == step;
    hide G.Enabled, G.Apply;
  }

  lemma {:induction false} BetweenRun(s: State, steps: seq<Step>, sent: nat)
    requires Between(s, sent) && IsRun(s, steps) && Undisturbed(steps)
    ensures Between(After(s, steps), sent)
    decreases steps
  {
    if steps != [] {
      assert Undisturbed([steps[0]]) && Undisturbed(steps[1..]);
      BetweenStep(s, steps[0], sent);
      hide Between, Undisturbed, Enabled, Apply;
      BetweenRun(Apply(s, steps[0]), steps[1..], sent);
    }
  }

  /** A retryable answer informs nobody and stops nothing: until the next attempt is queued the caller stays connected
      and uninformed, whatever else happens but a deadline, a disconnection or a stopped queue, and at any such time
      the loop can go on to queue exactly one more attempt. */
  lemma RetryGoesOn(s: State, more: seq<Step>) returns (next: seq<Step>)
    requires MayRetry(s)
    requires Enabled(s, Receive) && IsRun(Apply(s, Receive), more) && Undisturbed(more)
    ensures var t := After(Apply(s, Receive), more);
            && t.connection.Open? && (next == [Retry, Send] || next == [Send]) && IsRun(t, next)
            && After(t, next).job == Awaiting(s.job.sent + 1) && After(t, next).slot.Queued?
            && After(t, next).connection.Open?
  {
    var u := Apply(s, Receive);
    ClassifiersAgree(s.slot.result.response);
    assert Between(u, s.job.sent);
    BetweenRun(u, more, s.job.sent);
    var t := After(u, more);
    hide IsRun, After;
    next := if t.job.Backoff? then [Retry, Send] else [Send];
    TwoSteps(t, s.job.sent);
  }

  lemma TwoSteps(t: State, sent: nat)
    requires Between(t, sent) && sent < 5
    ensures var next := if t.job.Backoff? then [Retry, Send] else [Send];
            && IsRun(t, next) && After(t, next).job == Awaiting(sent + 1) && After(t, next).slot.Queued?
            && After(t, next).connection.Open?
  {
    var next := if t.job.Backoff? then [Retry, Send] else [Send];
    assert [Retry, Send][1..] == [Send] && [Send][1..] == [];
    if t.job.Backoff? {
      assert IsRun(Apply(t, Retry), [Send]);
    }
  }
}
