/** What reaches a caller through a client is the result of its own execution. */
module EndToEnd {
  import opened Wrappers
  import opened Budgets
  import opened Responses
  import opened Queueing
  import opened Gateway
  import opened GatewayTheorems
  import opened GatewayRecords
  import opened AtMostOnce
  import D = Dispatching
  import R = DispatchReplies

  /** The success `answer` is the result of caller `c`: its own execution was genuinely one, and the answer is the reply
      of its handler or carries the document of its upstream. */
  predicate ResultOf(r: Record, maximum: nat, c: nat, answer: Response) {
    && c in r.endings && r.endings[c].Ran? && Genuine(r.endings[c].execution, maximum)
    && match r.endings[c].execution.upstream
       case Native(reply) => answer == reply
       case Replied(_, _, _, parsed) => answer == Response(200, None, parsed)
       case _ => false
  }

  lemma SuccessIsResult(cfg: Settings, maxima: map<Key, nat>, steps: seq<Step>, c: nat, answer: Response)
    requires cfg.limit >= 1 && IsRun(Init(cfg, maxima), steps)
    requires Answer(c, answer) in After(Init(cfg, maxima), steps).books.answers && IsSuccess(answer.status)
    ensures ResultOf(RecordOf(cfg, maxima, steps), cfg.maxBody, c, answer)
  {
    ToldWhatHappened(cfg, maxima, steps, Answer(c, answer));
    hide RecordOf, Justified, IsRun, After;
  }

  /** What a call of the Python client returns is the document of the one execution that its last attempt had. */
  lemma CallReturnsItsResult(cfg: Settings, maxima: map<Key, nat>, steps: seq<Step>, callers: seq<nat>,
                             script: nat -> Sdk.Turn, report: Sdk.Report)
    requires cfg.limit >= 1 && IsRun(Init(cfg, maxima), steps)
    requires SdkTranscript(After(Init(cfg, maxima), steps), callers, script)
    requires Sdk.Concludes(script, report, |callers|) && report.Returned?
    ensures callers != []
    ensures exists answer: Response :: answer.body == Some(report.value)
              && ResultOf(RecordOf(cfg, maxima, steps), cfg.maxBody, callers[|callers| - 1], answer)
  {
    var answer := script(|callers|).attempt.response;
    assert answer.body == Some(report.value) && IsSuccess(answer.status);
    SuccessIsResult(cfg, maxima, steps, callers[|callers| - 1], answer);
    hide ResultOf, RecordOf, IsRun, After;
  }

  /** A success that the dispatcher replies is the result of the one execution that its last attempt had. */
  lemma ReplyIsItsResult(cfg: Settings, maxima: map<Key, nat>, before: seq<Step>, deadline: nat, steps: seq<D.Step>)
    requires cfg.limit >= 1 && IsRun(Init(cfg, maxima), before)
    requires D.IsRun(D.Init(After(Init(cfg, maxima), before), deadline), steps)
    requires var s := D.After(D.Init(After(Init(cfg, maxima), before), deadline), steps);
             s.connection.Informed? && s.connection.reply.Success?
    ensures var s := D.After(D.Init(After(Init(cfg, maxima), before), deadline), steps);
            var all := before + D.Projected(steps);
            && IsRun(Init(cfg, maxima), all) && s.begun != []
            && ResultOf(RecordOf(cfg, maxima, all), cfg.maxBody, s.begun[|s.begun| - 1], s.connection.reply.answer)
  {
    var gateway := After(Init(cfg, maxima), before);
    var start := D.Init(gateway, deadline);
    var s := D.After(start, steps);
    assert Reachable(gateway);
    D.ProjectedRun(start, steps);
    RunConcat(Init(cfg, maxima), before, D.Projected(steps));
    R.SuccessIsReceived(gateway, deadline, steps, s.connection.reply.answer);
    var i := R.ReplyIsExplained(gateway, deadline, steps);
    assert IsSuccess(s.connection.reply.answer.status);
    hide ResultOf, RecordOf, IsRun, After, D.IsRun, D.After, Reachable;
    SuccessIsResult(cfg, maxima, before + D.Projected(steps), s.begun[|s.begun| - 1], s.connection.reply.answer);
  }
}
