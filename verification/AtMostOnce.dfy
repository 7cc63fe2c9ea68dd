/** The gateway composed with the retry loops: at most one attempt of a logical task is ever executed, and a task
    reported as not started never is. Each attempt is one HTTP request, so one caller of the gateway. */
module AtMostOnce {
  import opened Responses
  import opened Queueing
  import opened Gateway
  import opened GatewayCallers
  import opened GatewayTheorems
  import opened Retry
  import Sdk

  /** The gateway has answered caller `c` with a response that is known not to have started. */
  ghost predicate Cleared(g: State, c: nat) {
    exists a | a in g.books.answers :: a.caller == c && NotStarted(a.response)
  }

  /** How many executions the callers of one task have been handed to. */
  function Executions(g: State, callers: seq<nat>): nat {
    if callers == [] then 0
    else Executions(g, callers[..|callers| - 1]) + Handed(g.history.handoffs, callers[|callers| - 1])
  }

  lemma ClearedIsForGood(g: State, steps: seq<Step>, c: nat)
    requires Reachable(g) && IsRun(g, steps) && Cleared(g, c)
    ensures Handed(After(g, steps).history.handoffs, c) == 0
  {
    var a :| a in g.books.answers && a.caller == c && NotStarted(a.response);
    NotStartedIsForGood(g, steps, a);
  }

  lemma {:induction false} AllCleared(g: State, steps: seq<Step>, callers: seq<nat>)
    requires Reachable(g) && IsRun(g, steps)
    requires forall i | 0 <= i < |callers| :: Cleared(g, callers[i])
    ensures Executions(After(g, steps), callers) == 0
    decreases |callers|
  {
    if callers != [] {
      ClearedIsForGood(g, steps, callers[|callers| - 1]);
      hide Cleared, Reachable, IsRun, After;
      AllCleared(g, steps, callers[..|callers| - 1]);
    }
  }

  /** When all attempts but the last are cleared, at most one is ever executed, now or later. */
  lemma AllButLastCleared(g: State, steps: seq<Step>, callers: seq<nat>)
    requires Reachable(g) && IsRun(g, steps)
    requires forall i | 0 <= i < |callers| - 1 :: Cleared(g, callers[i])
    ensures Executions(After(g, steps), callers) <= 1
  {
    if callers != [] {
      AllCleared(g, steps, callers[..|callers| - 1]);
      ReachableOn(g, steps);
      UniqueFate(After(g, steps), callers[|callers| - 1]);
    }
  }

  // ---------- The retry loops ----------

  /** The answers the loop got are the gateway's: attempt `n` was made by caller `callers[n - 1]`, and if it was
      answered, with what the gateway answered that caller. A lost attempt may have been answered or not. */
  predicate Transcript(g: State, callers: seq<nat>, script: nat -> Exchange) {
    forall n | 1 <= n <= |callers| && script(n).Answered? ::
      Answer(callers[n - 1], script(n).response) in g.books.answers
  }

  lemma RetriedAreCleared(g: State, callers: seq<nat>, script: nat -> Exchange)
    requires Transcript(g, callers, script) && Disciplined(script, |callers|)
    ensures forall i | 0 <= i < |callers| - 1 :: Cleared(g, callers[i])
  {
    forall i | 0 <= i < |callers| - 1 ensures Cleared(g, callers[i]) {
      var r := script(i + 1).response;
      ClassifiersAgree(r);
      assert Answer(callers[i], r).caller == callers[i] && NotStarted(Answer(callers[i], r).response);
    }
  }

  /** At-most-once execution: whichever loop made the attempts, in every state of the gateway from then on, at
      most one of them has been handed to an executor. */
  lemma RetryingExecutesAtMostOnce(g: State, steps: seq<Step>, callers: seq<nat>, script: nat -> Exchange)
    requires Reachable(g) && IsRun(g, steps)
    requires Transcript(g, callers, script) && Disciplined(script, |callers|)
    ensures Executions(After(g, steps), callers) <= 1
  {
    RetriedAreCleared(g, callers, script);
    AllButLastCleared(g, steps, callers);
  }

  /** An attempt that succeeded is the one executed. */
  lemma SuccessMeansExecuted(g: State, steps: seq<Step>, c: nat, r: Response)
    requires Reachable(g) && IsRun(g, steps) && Answer(c, r) in g.books.answers && IsSuccess(r.status)
    ensures Handed(After(g, steps).history.handoffs, c) == 1
  {
    AnswersStay(g, steps, Answer(c, r));
    ReachableOn(g, steps);
    AnswersFit(After(g, steps), Answer(c, r));
    ClassifiersAgree(r);
    UniqueFate(After(g, steps), c);
  }

  // ---------- The SDK ----------

  predicate SdkTranscript(g: State, callers: seq<nat>, script: nat -> Sdk.Turn) {
    forall n | 1 <= n <= |callers| && script(n).attempt.Answer? ::
      Answer(callers[n - 1], script(n).attempt.response) in g.books.answers
  }

  lemma KnownAreCleared(g: State, callers: seq<nat>, script: nat -> Sdk.Turn)
    requires SdkTranscript(g, callers, script)
    ensures forall i | 0 <= i < |callers| && Sdk.KnownUnstarted(script, i + 1) :: Cleared(g, callers[i])
  {
    forall i | 0 <= i < |callers| && Sdk.KnownUnstarted(script, i + 1) ensures Cleared(g, callers[i]) {
      var a := Answer(callers[i], script(i + 1).attempt.response);
      assert a in g.books.answers && a.caller == callers[i] && NotStarted(a.response);
    }
  }

  /** Whatever a call of the Python client concludes against a gateway, at most one of its attempts is ever
      executed; when it fails as not started, none is, then or later; when it returns, exactly one has been. */
  lemma CallExecutesAtMostOnce(
    g: State, steps: seq<Step>, callers: seq<nat>, script: nat -> Sdk.Turn, report: Sdk.Report)
    requires Reachable(g) && IsRun(g, steps)
    requires SdkTranscript(g, callers, script) && Sdk.Concludes(script, report, |callers|)
    ensures Executions(After(g, steps), callers) <= 1
    ensures report.Failed? && report.execution.Unstarted? ==> Executions(After(g, steps), callers) == 0
    ensures report.Returned? ==> Executions(After(g, steps), callers) == 1
  {
    KnownAreCleared(g, callers, script);
    Sdk.EarlierAreKnown(script, report, |callers|);
    if report.Returned? {
      SuccessMeansExecuted(g, steps, callers[|callers| - 1], script(|callers|).attempt.response);
    }
    hide Sdk.Slept, Sdk.GaveUpAfter, Sdk.GaveUpBefore, Sdk.KnownUnstarted, Cleared, Reachable, IsRun, After;
    AllButLastCleared(g, steps, callers);
    if report.Failed? && report.execution.Unstarted? {
      AllCleared(g, steps, callers);
    }
  }
}
