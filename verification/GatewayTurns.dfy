/** Turns and ceilings over whole runs: which class goes next follows from the last three selections, and a budget's
    ceiling is the one it was last given. */
module GatewayTurns {
  import opened Wrappers
  import opened Budgets
  import opened Responses
  import opened Queueing
  import opened Gateway
  import opened GatewayEffects

  // ---------- Turns ----------

  /** A selection of the scheduler: a job of one class was handed off, while jobs of both classes waited or not, or
      nothing was found. */
  datatype Pick = Picked(cls: Class, contested: bool) | FoundNothing

  /** Which queue a hand-off took its job from shows in the queues. */
  function PickOf(s: State, step: Step): seq<Pick>
    requires Enabled(s, step)
  {
    match step
    case HandOff =>
      var agentsSame := Apply(s, step).books.waiting.agents == s.books.waiting.agents;
      [Picked(if agentsSame then Interactive else Agent,
              s.books.waiting.interactive != [] && s.books.waiting.agents != [])]
    case FindNone => [FoundNothing]
    case _ => []
  }

  /** The selections of a run, oldest first, after those before it. */
  ghost function Picks(before: seq<Pick>, s: State, steps: seq<Step>): seq<Pick>
    requires IsRun(s, steps)
    decreases steps
  {
    if steps == [] then before else Picks(before + PickOf(s, steps[0]), Apply(s, steps[0]), steps[1..])
  }

  const AHEAD := Picked(Interactive, true)

  /** How many of the last selections put an interactive job ahead of a waiting agent job. */
  function Streak(picks: seq<Pick>): nat {
    if picks == [] || picks[|picks| - 1] != AHEAD then 0 else Streak(picks[..|picks| - 1]) + 1
  }

  lemma StreakSnoc(picks: seq<Pick>, p: Pick)
    ensures Streak(picks + [p]) == if p == AHEAD then Streak(picks) + 1 else 0
  {
    assert (picks + [p])[..|picks|] == picks;
  }

  lemma LastThree(picks: seq<Pick>)
    ensures Streak(picks) >= 3 <==>
            |picks| >= 3 && forall i | |picks| - 3 <= i < |picks| :: picks[i] == AHEAD
  {
    var n := |picks|;
    if n >= 1 && picks[n - 1] == AHEAD {
      var one := picks[..n - 1];
      if n >= 2 && one[n - 2] == AHEAD {
        var two := one[..n - 2];
        assert Streak(picks) == Streak(two) + 2;
        assert n >= 3 ==> two[n - 3] == picks[n - 3];
      }
    }
  }

  lemma HandOffCounts(s: State, picks: seq<Pick>)
    requires Enabled(s, HandOff) && s.cfg.mode.Weighted? && s.streak == Streak(picks)
    ensures Apply(s, HandOff).streak == Streak(picks + PickOf(s, HandOff))
  {
    HandOffEffect(s);
    var cls := s.Select().value;
    var t := HandedOff(s, cls);
    assert |t.books.waiting.Of(cls)| == |s.books.waiting.Of(cls)| - 1;
    assert PickOf(s, HandOff) == [Picked(cls, s.books.waiting.interactive != [] && s.books.waiting.agents != [])];
    hide PickOf, Apply, Enabled, Streak, Chosen;
    StreakSnoc(picks, Picked(cls, s.books.waiting.interactive != [] && s.books.waiting.agents != []));
  }

  lemma StepCounts(s: State, step: Step, picks: seq<Pick>)
    requires Enabled(s, step) && s.cfg.mode.Weighted? && s.streak == Streak(picks)
    ensures Apply(s, step).streak == Streak(picks + PickOf(s, step)) && Apply(s, step).cfg == s.cfg
  {
    ConfigStays(s, step);
    if step.HandOff? {
      HandOffCounts(s, picks);
      hide Apply, Enabled, PickOf, Streak;
    } else if step.FindNone? {
      StreakSnoc(picks, FoundNothing);
      hide Streak;
    } else {
      assert PickOf(s, step) == [] && picks + [] == picks;
      hide PickOf, Streak;
      StreakStays(s, step);
      hide Apply, Enabled;
    }
  }

  lemma StreakStays(s: State, step: Step)
    requires Enabled(s, step) && !step.HandOff? && !step.FindNone?
    ensures Apply(s, step).streak == s.streak
  {
    Kinds(step);
    if ByTask(step) {
      TaskFrame(s, step);
      hide Apply, Enabled;
    } else if Refuses(step) {
      RefusalFrame(s, step);
      hide Apply, Enabled;
    } else if Enters(step) {
      EntryFrame(s, step);
      hide Apply, Enabled;
    } else if ByScheduler(step) {
      SchedulerFrame(s, step);
      hide Apply, Enabled;
    } else if Around(step) {
      AroundFrame(s, step);
      hide Apply, Enabled;
    } else if TakesOut(step) {
      RemovalStep(s, step);
      hide Apply, Enabled, Removable;
    } else {
      assert step.Push?;
    }
  }

  lemma {:induction false} RunCounts(s: State, steps: seq<Step>, picks: seq<Pick>)
    requires IsRun(s, steps) && s.cfg.mode.Weighted? && s.streak == Streak(picks)
    ensures After(s, steps).streak == Streak(Picks(picks, s, steps)) && After(s, steps).cfg == s.cfg
    decreases steps
  {
    if steps != [] {
      StepCounts(s, steps[0], picks);
      hide Apply, Enabled, PickOf, Streak;
      RunCounts(Apply(s, steps[0]), steps[1..], picks + PickOf(s, steps[0]));
    }
  }

  /** In weighted mode, while jobs of both classes wait, the agent job goes next exactly when each of the last three
      selections handed off an interactive job although an agent job waited: a hand-off of an agent job or without
      competition, or a selection that found nothing, starts the count again. */
  lemma AgentsTurn(cfg: Settings, maxima: map<Key, nat>, steps: seq<Step>)
    requires cfg.mode.Weighted? && IsRun(Init(cfg, maxima), steps)
    requires var w := After(Init(cfg, maxima), steps).books.waiting; w.interactive != [] && w.agents != []
    ensures var s, picks := After(Init(cfg, maxima), steps), Picks([], Init(cfg, maxima), steps);
            && (s.Select() == Some(Agent) <==>
                |picks| >= 3 && forall i | |picks| - 3 <= i < |picks| :: picks[i] == Picked(Interactive, true))
            && (s.Select() == Some(Agent) || s.Select() == Some(Interactive))
  {
    RunCounts(Init(cfg, maxima), steps, []);
    LastThree(Picks([], Init(cfg, maxima), steps));
    hide Streak, Picks, IsRun, After;
  }

  // ---------- Ceilings ----------

  /** The ceiling a budget was last given in a run, or else had before. */
  function Ceiling(steps: seq<Step>, key: Key, before: nat): nat {
    if steps == [] then before
    else
      var last := steps[|steps| - 1];
      if last.Resize? && last.key == key then last.maximum else Ceiling(steps[..|steps| - 1], key, before)
  }

  predicate SameCeilings(l: Ledger, m: Ledger) {
    l.Keys == m.Keys && forall k | k in l && k in m :: l[k].maximum == m[k].maximum
  }

  lemma ReleaseKeepsCeilings(l: Ledger, key: Key)
    ensures SameCeilings(l, Release1(l, key))
  {
  }

  lemma TaskCeilings(s: State, step: Step)
    requires Enabled(s, step) && ByTask(step)
    ensures SameCeilings(s.books.ledger, Apply(s, step).books.ledger)
  {
    hide RemoveAt, Execute, LostReply, SameCeilings, Release1;
    match step
    case Complete(i, _) => ReleaseKeepsCeilings(s.books.ledger, s.executing[i].permit);
    case Lose(i) => ReleaseKeepsCeilings(s.books.ledger, s.executing[i].permit);
    case Reply(_) => SameIsSame(s.books.ledger);
  }

  lemma SameIsSame(l: Ledger)
    ensures SameCeilings(l, l)
  {
  }

  lemma RefusalCeilings(s: State, step: Step)
    requires Enabled(s, step) && Refuses(step)
    ensures SameCeilings(s.books.ledger, Apply(s, step).books.ledger)
  {
    RefusalFrame(s, step);
    if step.Full? {
      ReleaseKeepsCeilings(s.books.ledger, s.lock.key);
      hide Overloaded, Release1, SameCeilings;
    } else {
      hide Apply, Enabled;
    }
  }

  lemma EntryCeilings(s: State, step: Step)
    requires Enabled(s, step) && Enters(step) && !step.Resize?
    ensures SameCeilings(s.books.ledger, Apply(s, step).books.ledger)
  {
    EntryFrame(s, step);
    if step.Enter? || step.SeeOpen? {
      hide Apply, Enabled;
    }
  }

  lemma QuietCeilings(s: State, step: Step)
    requires Enabled(s, step) && !step.Resize?
    ensures SameCeilings(s.books.ledger, Apply(s, step).books.ledger)
  {
    hide Apply, Enabled, SameCeilings, Removable;
    Kinds(step);
    SameIsSame(s.books.ledger);
    if ByTask(step) {
      TaskCeilings(s, step);
    } else if Refuses(step) {
      RefusalCeilings(s, step);
    } else if Enters(step) {
      EntryCeilings(s, step);
    } else if ByScheduler(step) {
      SchedulerFrame(s, step);
    } else if Around(step) {
      AroundFrame(s, step);
    } else if TakesOut(step) {
      RemovalStep(s, step);
      ReleaseKeepsCeilings(s.books.ledger, RemovalOf(s, step).job.permit);
    } else {
      MovedLedger(s, step);
    }
  }

  lemma MovedLedger(s: State, step: Step)
    requires Enabled(s, step) && (step.Push? || step.HandOff?)
    ensures Apply(s, step).books.ledger == s.books.ledger
  {
    hide NextStreak, Stays, Chosen;
  }

  lemma CeilingOf(s: State, step: Step, key: Key)
    requires Enabled(s, step) && key in s.books.ledger
    ensures key in Apply(s, step).books.ledger
    ensures Apply(s, step).books.ledger[key].maximum ==
            if step.Resize? && step.key == key then step.maximum else s.books.ledger[key].maximum
  {
    if !step.Resize? {
      QuietCeilings(s, step);
      hide Apply, Enabled;
    }
  }

  /** Whatever is admitted, released, dropped or lost, a budget's ceiling is the last one it was given. */
  lemma {:induction false} CeilingIsLastResize(s: State, steps: seq<Step>, key: Key)
    requires IsRun(s, steps) && key in s.books.ledger
    ensures key in After(s, steps).books.ledger
    ensures After(s, steps).books.ledger[key].maximum == Ceiling(steps, key, s.books.ledger[key].maximum)
    decreases |steps|
  {
    if steps != [] {
      var n := |steps| - 1;
      RunSnoc(s, steps);
      hide Apply, Enabled;
      CeilingIsLastResize(s, steps[..n], key);
      CeilingOf(After(s, steps[..n]), steps[n], key);
    }
  }

  /** A run is a shorter run and one more step. */
  lemma {:induction false} RunSnoc(s: State, steps: seq<Step>)
    requires steps != [] && IsRun(s, steps)
    ensures var n := |steps| - 1;
            && IsRun(s, steps[..n]) && Enabled(After(s, steps[..n]), steps[n])
            && After(s, steps) == Apply(After(s, steps[..n]), steps[n])
    decreases steps
  {
    var n := |steps| - 1;
    hide Apply, Enabled;
    if n > 0 {
      RunSnoc(Apply(s, steps[0]), steps[1..]);
      assert steps[1..][..n - 1] == steps[..n][1..];
    } else {
      assert steps[1..] == [];
    }
  }
}
