/** Resizable owner/class budgets (src/budget.rs).

    A `Budget` object holds one mutex-protected `Snapshot`. The pure functions on
    snapshots are what its methods are proved against; the gateway protocol and the
    client gates use the same functions. */
module Budgets {
  import opened Wrappers

  datatype Class = Agent | Interactive

  /** A budget belongs to one owner and one class. */
  datatype Key = Key(owner: string, cls: Class)

  /** `outstanding` is an `int`, so that an underflow would be visible rather than excluded by its type. */
  datatype Snapshot = Snapshot(maximum: nat, outstanding: int, revision: nat)

  function Fresh(maximum: nat): Snapshot {
    Snapshot(maximum, 0, 1)
  }

  function Resized(s: Snapshot, maximum: nat): Snapshot {
    if s.maximum != maximum then s.(maximum := maximum, revision := s.revision + 1) else s
  }

  predicate Admits(s: Snapshot) {
    s.outstanding < s.maximum
  }

  function Acquired(s: Snapshot): Snapshot {
    s.(outstanding := s.outstanding + 1)
  }

  function Released(s: Snapshot): Snapshot {
    s.(outstanding := s.outstanding - 1)
  }

  class Budget {
    var state: Snapshot

    constructor (maximum: nat)
      ensures state == Fresh(maximum)
    {
      state := Snapshot(maximum, 0, 1);
    }

    method SetMaximum(maximum: nat) returns (seen: Snapshot)
      modifies this
      ensures state == Resized(old(state), maximum) && seen == state
      ensures state.maximum == maximum && state.outstanding == old(state.outstanding)
      ensures state.revision == old(state.revision) + if maximum == old(state.maximum) then 0 else 1
    {
      if state.maximum != maximum {
        state := state.(maximum := maximum);
        state := state.(revision := state.revision + 1);
      }
      seen := state;
    }

    /** The snapshot handed back belongs to the admission itself. */
    method TryAcquireObserved() returns (admitted: Option<Snapshot>)
      modifies this
      ensures admitted.Some? <==> old(state.outstanding) < old(state.maximum)
      ensures admitted.Some? ==> state == old(state).(outstanding := old(state.outstanding) + 1)
      ensures admitted.Some? ==> admitted.value == state
      ensures admitted.None? ==> state == old(state)
    {
      if state.outstanding >= state.maximum {
        return None;
      }
      state := state.(outstanding := state.outstanding + 1);
      admitted := Some(state);
    }

    /** Dropping a permit. The unsigned decrement must not underflow. */
    method Release()
      requires state.outstanding > 0
      modifies this
      ensures state == old(state).(outstanding := old(state.outstanding) - 1)
    {
      state := state.(outstanding := state.outstanding - 1);
    }
  }

  // ---------- Whole histories of one budget ----------

  datatype Event = Resize(maximum: nat) | TryAdmit | Release

  predicate Possible(s: Snapshot, e: Event) {
    e.Release? ==> s.outstanding > 0
  }

  function Step(s: Snapshot, e: Event): Snapshot {
    match e
    case Resize(maximum) => Resized(s, maximum)
    case TryAdmit => if Admits(s) then Acquired(s) else s
    case Release => Released(s)
  }

  predicate PossibleRun(s: Snapshot, es: seq<Event>)
    decreases es
  {
    es != [] ==> Possible(s, es[0]) && PossibleRun(Step(s, es[0]), es[1..])
  }

  /** The snapshot after the first `i` events. */
  function At(s: Snapshot, es: seq<Event>, i: nat): Snapshot
    requires i <= |es|
    decreases es
  {
    if i == 0 then s else At(Step(s, es[0]), es[1..], i - 1)
  }

  /** What a later snapshot of the same live budget must satisfy against an earlier one. */
  predicate Continues(earlier: Snapshot, later: Snapshot) {
    && earlier.revision <= later.revision
    && (earlier.revision == later.revision ==> earlier.maximum == later.maximum)
  }

  lemma {:induction false} AtSuccessor(s: Snapshot, es: seq<Event>, i: nat)
    requires i < |es|
    ensures At(s, es, i + 1) == Step(At(s, es, i), es[i])
    decreases es
  {
    if i > 0 {
      AtSuccessor(Step(s, es[0]), es[1..], i - 1);
    }
  }

  /** Revisions never fall, and one revision names one maximum, over any history of resizes,
      admissions and releases. */
  lemma {:induction false} HistoryContinues(s: Snapshot, es: seq<Event>, i: nat, j: nat)
    requires i <= j <= |es|
    ensures Continues(At(s, es, i), At(s, es, j))
    decreases j
  {
    if i < j {
      HistoryContinues(s, es, i, j - 1);
      AtSuccessor(s, es, j - 1);
    }
  }

  predicate NoResize(es: seq<Event>, i: nat, j: nat)
    requires i <= j <= |es|
  {
    forall k | i <= k < j :: !es[k].Resize?
  }

  /** Until the next resize, `outstanding` never passes the larger of its value now and the ceiling:
      it cannot rise at or above the ceiling, and once within the ceiling it stays within it. */
  lemma {:induction false} BoundedUntilResize(s: Snapshot, es: seq<Event>, i: nat, j: nat)
    requires i <= j <= |es| && NoResize(es, i, j)
    ensures At(s, es, j).maximum == At(s, es, i).maximum
    ensures At(s, es, i).outstanding <= At(s, es, i).maximum ==> At(s, es, j).outstanding <= At(s, es, i).maximum
    ensures At(s, es, i).outstanding >= At(s, es, i).maximum ==> At(s, es, j).outstanding <= At(s, es, i).outstanding
    decreases j
  {
    if i < j {
      BoundedUntilResize(s, es, i, j - 1);
      AtSuccessor(s, es, j - 1);
    }
  }

  /** The admission attempts of a history that succeed. */
  function Admissions(s: Snapshot, es: seq<Event>): nat
    decreases es
  {
    if es == [] then 0
    else (if es[0].TryAdmit? && Admits(s) then 1 else 0) + Admissions(Step(s, es[0]), es[1..])
  }

  function Releases(es: seq<Event>): nat {
    if es == [] then 0 else (if es[0].Release? then 1 else 0) + Releases(es[1..])
  }

  /** `outstanding` is always the admissions minus the releases, and never negative. */
  lemma {:induction false} OutstandingIsDifference(s: Snapshot, es: seq<Event>)
    requires s.outstanding >= 0 && PossibleRun(s, es)
    ensures At(s, es, |es|).outstanding == s.outstanding + Admissions(s, es) - Releases(es)
    ensures At(s, es, |es|).outstanding >= 0
    decreases es
  {
    if es != [] {
      OutstandingIsDifference(Step(s, es[0]), es[1..]);
    }
  }

  /** An attempt is admitted exactly below the ceiling; then its own snapshot is within the ceiling that admitted it. */
  lemma AdmissionWithinCeiling(s: Snapshot, es: seq<Event>, i: nat)
    requires i < |es| && es[i].TryAdmit?
    ensures var before, after := At(s, es, i), At(s, es, i + 1);
            && (after != before <==> before.outstanding < before.maximum)
            && (after != before ==> after.outstanding == before.outstanding + 1 <= after.maximum)
  {
    AtSuccessor(s, es, i);
  }

  // ---------- The budgets of one gateway ----------

  type Ledger = map<Key, Snapshot>

  function Release1(ledger: Ledger, key: Key): Ledger {
    if key in ledger then ledger[key := Released(ledger[key])] else ledger
  }

  function Acquire1(ledger: Ledger, key: Key): Ledger
    requires key in ledger
  {
    ledger[key := Acquired(ledger[key])]
  }

  /** Distinct owner/class pairs have distinct budget objects. */
  ghost predicate Separate(budgets: map<Key, Budget>) {
    forall k, l | k in budgets && l in budgets && k != l :: budgets[k] != budgets[l]
  }
}
