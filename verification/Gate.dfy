/** The adaptive attempt gate of the Rust clients (src/bin/load/control.rs) and the continuity checks that it and
    the Python client make on discovery (python/ai_protocol/client.py). */
module Gates {
  import opened Wrappers
  import opened Budgets
  import opened Descriptors
  import opened Responses

  /** A parsed discovery document, as far as the clients check it. */
  datatype Policy = Policy(
    version: int, serviceId: Option<string>, principal: string, cls: string, revision: int, refreshAfter: int,
    outstanding: int, scope: string, maximum: int, operations: seq<Json>)

  datatype GateState = GateState(
    principal: Option<string>, revision: int, maximum: int, active: int, serverOutstanding: int,
    ready: bool, stopped: bool)

  const NEW_GATE := GateState(None, 0, 0, 0, 0, false, false)

  /** Version, class, owner, scope and ranges. The sign of `outstanding` is checked by parsing. */
  predicate Supported(p: Policy) {
    && p.version == 3 && p.cls == "agent" && p.principal != "" && p.scope == "principal"
    && 1 <= p.maximum <= 1000 && p.revision != 0 && 100 <= p.refreshAfter <= 60000
  }

  /** The policy continues the identity and the revisions applied so far. */
  predicate Consistent(s: GateState, p: Policy) {
    && (s.principal.Some? ==> s.principal.value == p.principal)
    && s.revision <= p.revision
    && (p.revision == s.revision ==> p.maximum == s.maximum)
  }

  predicate Accepts(s: GateState, p: Policy) {
    Supported(p) && Consistent(s, p)
  }

  function Applied(s: GateState, p: Policy): GateState {
    if !Accepts(s, p) then s
    else s.(principal := Some(p.principal), revision := p.revision, maximum := p.maximum,
            serverOutstanding := p.outstanding, ready := true)
  }

  predicate HasRoom(s: GateState) {
    !s.stopped && s.ready && s.active < s.maximum
  }

  /** One turn of the loop in `acquire`. */
  datatype Turn = Stopped | Granted | Blocked

  function TurnOf(s: GateState): Turn {
    if s.stopped then Stopped else if s.ready && s.active < s.maximum then Granted else Blocked
  }

  class Gate {
    var state: GateState

    constructor ()
      ensures state == NEW_GATE
    {
      state := GateState(None, 0, 0, 0, 0, false, false);
    }

    method Apply(policy: Policy) returns (r: Result<(), string>)
      modifies this
      ensures state == Applied(old(state), policy)
      ensures r.Ok? <==> Accepts(old(state), policy)
      ensures r.Ok? ==> state == old(state).(principal := Some(policy.principal), revision := policy.revision,
                                             maximum := policy.maximum, serverOutstanding := policy.outstanding,
                                             ready := true)
      ensures r.Err? ==> state == old(state)
    {
      if policy.version != 3
         || policy.cls != "agent"
         || policy.principal == ""
         || policy.scope != "principal"
         || !(1 <= policy.maximum <= 1000)
         || policy.revision == 0
         || !(100 <= policy.refreshAfter <= 60000)
      {
        return Err("Invalid or unsupported dynamic policy");
      }
      if (state.principal.Some? && state.principal.value != policy.principal)
         || policy.revision < state.revision
         || (policy.revision == state.revision && policy.maximum != state.maximum)
      {
        return Err("Inconsistent policy revision or principal");
      }
      state := state.(principal := Some(policy.principal));
      state := state.(revision := policy.revision, maximum := policy.maximum);
      state := state.(serverOutstanding := policy.outstanding, ready := true);
      r := Ok(());
    }

    method Pause()
      modifies this
      ensures state == old(state).(ready := false)
    {
      state := state.(ready := false);
    }

    method Stop()
      modifies this
      ensures state == old(state).(stopped := true)
    {
      state := state.(stopped := true);
    }

    /** One check under the lock: refused for good, granted, or to wait for a change. */
    method TryAcquire() returns (turn: Turn)
      modifies this
      ensures turn == TurnOf(old(state))
      ensures turn.Stopped? <==> old(state).stopped
      ensures turn.Granted? <==> !old(state).stopped && old(state).ready && old(state).active < old(state).maximum
      ensures state == if HasRoom(old(state)) then old(state).(active := old(state.active) + 1) else old(state)
    {
      if state.stopped {
        return Stopped;
      }
      if state.ready && state.active < state.maximum {
        state := state.(active := state.active + 1);
        return Granted;
      }
      turn := Blocked;
    }

    /** Dropping an attempt guard. */
    method Release()
      requires state.active > 0
      modifies this
      ensures state == old(state).(active := old(state.active) - 1)
    {
      state := state.(active := state.active - 1);
    }
  }

  // ---------- The gate with its waiters ----------

  /** A waiter remembers the change it has seen; it is checking the state, or parked until another change. */
  datatype Waiter = Checking(seen: nat) | Parked(seen: nat)

  /** `owed` changes have been made under the lock and not been announced yet. */
  datatype System = System(gate: GateState, guards: nat, version: nat, owed: nat, waiters: map<nat, Waiter>)

  datatype Event =
    | Apply(policy: Policy)
    | Pause
    | Stop
    | Announce
    | Subscribe(waiter: nat)
    | Check(waiter: nat)
    | Resume(waiter: nat)
    | Abandon(waiter: nat)
    | DropGuard

  predicate Enabled(s: System, e: Event) {
    match e
    case Announce => s.owed > 0
    case Subscribe(w) => w !in s.waiters
    case Check(w) => w in s.waiters && s.waiters[w].Checking?
    case Resume(w) => w in s.waiters && s.waiters[w].Parked? && s.waiters[w].seen != s.version
    case Abandon(w) => w in s.waiters
    case DropGuard => s.guards > 0
    case _ => true
  }

  function Next(s: System, e: Event): System
    requires Enabled(s, e)
  {
    match e
    case Apply(p) => if Accepts(s.gate, p) then s.(gate := Applied(s.gate, p), owed := s.owed + 1) else s
    case Pause => s.(gate := s.gate.(ready := false), owed := s.owed + 1)
    case Stop => s.(gate := s.gate.(stopped := true), owed := s.owed + 1)
    case Announce => s.(version := s.version + 1, owed := s.owed - 1)
    case Subscribe(w) => s.(waiters := s.waiters[w := Checking(s.version)])
    case Check(w) =>
      (match TurnOf(s.gate)
       case Stopped => s.(waiters := s.waiters - {w})
       case Granted => s.(gate := s.gate.(active := s.gate.active + 1), guards := s.guards + 1,
                          owed := s.owed + 1, waiters := s.waiters - {w})
       case Blocked => s.(waiters := s.waiters[w := Waiter.Parked(s.waiters[w].seen)]))
    case Resume(w) => s.(waiters := s.waiters[w := Checking(s.version)])
    case Abandon(w) => s.(waiters := s.waiters - {w})
    case DropGuard => s.(gate := s.gate.(active := s.gate.active - 1), guards := s.guards - 1, owed := s.owed + 1)
  }

  /** `active` counts the live guards, and a parked waiter that no announced or owed change will wake cannot
      proceed: no resize, release or stop is missed. */
  ghost predicate Sound(s: System) {
    && s.gate.active == s.guards
    && forall w | w in s.waiters ::
         && s.waiters[w].seen <= s.version
         && (s.waiters[w].Parked? && s.waiters[w].seen == s.version && s.owed == 0 ==> TurnOf(s.gate).Blocked?)
  }

  /** What one state of a gate guarantees of every later one: the owner stays, revisions never fall, one revision
      has one maximum, and after a stop the active count only falls. */
  predicate Leads(a: GateState, b: GateState) {
    && (a.principal.Some? ==> b.principal == a.principal)
    && a.revision <= b.revision
    && (a.principal.Some? && a.revision == b.revision ==> a.maximum == b.maximum)
    && (a.stopped ==> b.stopped && b.active <= a.active)
    && (b.ready && !a.ready ==> b.principal.Some?)
  }

  lemma EventSound(s: System, e: Event)
    requires Sound(s) && Enabled(s, e)
    ensures Sound(Next(s, e)) && Leads(s.gate, Next(s, e).gate)
    ensures Next(s, e).gate.active > s.gate.active ==> HasRoom(s.gate)
  {
  }

  ghost predicate IsRun(s: System, es: seq<Event>)
    decreases es
  {
    es != [] ==> Enabled(s, es[0]) && IsRun(Next(s, es[0]), es[1..])
  }

  ghost function After(s: System, es: seq<Event>): System
    requires IsRun(s, es)
    decreases es
  {
    if es == [] then s else After(Next(s, es[0]), es[1..])
  }

  /** Over any run of policies, pauses, stops, acquisitions and releases. */
  lemma {:induction false} RunSound(s: System, es: seq<Event>)
    requires Sound(s) && IsRun(s, es)
    ensures Sound(After(s, es)) && Leads(s.gate, After(s, es).gate)
    decreases es
  {
    if es != [] {
      EventSound(s, es[0]);
      RunSound(Next(s, es[0]), es[1..]);
    }
  }

  // ---------- The Python client's continuity check ----------

  predicate PyAccepts(previous: Option<Policy>, p: Policy) {
    && p.version == 3 && p.principal != "" && p.cls in {"agent", "interactive"} && p.scope == "principal"
    && 1 <= p.maximum <= 1000 && p.revision >= 1 && 100 <= p.refreshAfter <= 60000 && p.outstanding >= 0
    && (p.serviceId.Some? ==> p.serviceId.value != "")
    && ValidOperations(p.operations)
    && (previous.Some? ==>
          && p.principal == previous.value.principal && p.cls == previous.value.cls
          && p.serviceId == previous.value.serviceId
          && previous.value.revision <= p.revision
          && (p.revision == previous.value.revision ==> p.maximum == previous.value.maximum))
  }

  // ---------- Snapshots of one live budget pass both checks ----------

  /** The part of a discovery document that does not change while the gateway lives. */
  datatype Identity = Identity(serviceId: string, principal: string, cls: Class, operations: seq<Json>)

  predicate ValidIdentity(id: Identity) {
    id.serviceId != "" && id.principal != "" && ValidOperations(id.operations)
  }

  /** The document the gateway publishes for a snapshot of the caller's budget. */
  function Published(id: Identity, s: Snapshot): Policy {
    Policy(3, Some(id.serviceId), id.principal, if id.cls.Agent? then "agent" else "interactive",
           s.revision, 1000, s.outstanding, "principal", s.maximum, id.operations)
  }

  /** The gateway only resizes within these bounds. */
  predicate InRange(es: seq<Budgets.Event>) {
    forall i | 0 <= i < |es| && es[i].Resize? :: 1 <= es[i].maximum <= 1000
  }

  lemma {:induction false} SnapshotsInRange(s: Snapshot, es: seq<Budgets.Event>, i: nat)
    requires 1 <= s.maximum <= 1000 && s.revision >= 1 && s.outstanding >= 0
    requires PossibleRun(s, es) && InRange(es) && i <= |es|
    ensures var seen := At(s, es, i); 1 <= seen.maximum <= 1000 && seen.revision >= 1 && seen.outstanding >= 0
    decreases es
  {
    if i > 0 {
      assert forall k | 0 <= k < |es[1..]| :: es[1..][k] == es[k + 1];
      SnapshotsInRange(Step(s, es[0]), es[1..], i - 1);
    }
  }

  predicate Within(times: seq<nat>, low: nat, high: nat) {
    forall i | 0 <= i < |times| :: low <= times[i] <= high
  }

  /** A gate fed with the published snapshots at the given times, oldest first, accepts every one. */
  predicate GateAcceptsAll(gate: GateState, id: Identity, s: Snapshot, es: seq<Budgets.Event>, times: seq<nat>)
    requires Within(times, 0, |es|)
    decreases times
  {
    times != [] ==>
      && Accepts(gate, Published(id, At(s, es, times[0])))
      && GateAcceptsAll(Applied(gate, Published(id, At(s, es, times[0]))), id, s, es, times[1..])
  }

  predicate PyAcceptsAll(previous: Option<Policy>, id: Identity, s: Snapshot, es: seq<Budgets.Event>, times: seq<nat>)
    requires Within(times, 0, |es|)
    decreases times
  {
    times != [] ==>
      && PyAccepts(previous, Published(id, At(s, es, times[0])))
      && PyAcceptsAll(Some(Published(id, At(s, es, times[0]))), id, s, es, times[1..])
  }

  predicate InOrder(times: seq<nat>) {
    forall i, j | 0 <= i < j < |times| :: times[i] <= times[j]
  }

  lemma {:induction false} GateAcceptsLater(
    gate: GateState, id: Identity, s: Snapshot, es: seq<Budgets.Event>, last: nat, times: seq<nat>)
    requires ValidIdentity(id) && id.cls.Agent? && InRange(es) && PossibleRun(s, es)
    requires 1 <= s.maximum <= 1000 && s.revision >= 1 && s.outstanding >= 0
    requires InOrder(times) && Within(times, last, |es|)
    requires last <= |es| && gate.principal == Some(id.principal)
    requires gate.revision == At(s, es, last).revision && gate.maximum == At(s, es, last).maximum
    ensures GateAcceptsAll(gate, id, s, es, times)
    decreases times
  {
    if times != [] {
      var t := times[0];
      HistoryContinues(s, es, last, t);
      SnapshotsInRange(s, es, t);
      GateAcceptsLater(Applied(gate, Published(id, At(s, es, t))), id, s, es, t, times[1..]);
    }
  }

  lemma {:induction false} PyAcceptsLater(
    previous: Policy, id: Identity, s: Snapshot, es: seq<Budgets.Event>, last: nat, times: seq<nat>)
    requires ValidIdentity(id) && InRange(es) && PossibleRun(s, es)
    requires 1 <= s.maximum <= 1000 && s.revision >= 1 && s.outstanding >= 0
    requires InOrder(times) && Within(times, last, |es|)
    requires last <= |es| && previous == Published(id, At(s, es, last))
    ensures PyAcceptsAll(Some(previous), id, s, es, times)
    decreases times
  {
    if times != [] {
      var t := times[0];
      HistoryContinues(s, es, last, t);
      SnapshotsInRange(s, es, t);
      PyAcceptsLater(Published(id, At(s, es, t)), id, s, es, t, times[1..]);
    }
  }

  /** Any in-order sequence of snapshots of one live budget, resized within bounds at arbitrary points, passes the
      continuity checks of a new Rust gate (for an agent) and of a new Python client. */
  lemma SnapshotsAreCompatible(id: Identity, maximum: nat, es: seq<Budgets.Event>, times: seq<nat>)
    requires ValidIdentity(id) && 1 <= maximum <= 1000 && InRange(es) && PossibleRun(Fresh(maximum), es)
    requires InOrder(times) && Within(times, 0, |es|)
    ensures id.cls.Agent? ==> GateAcceptsAll(NEW_GATE, id, Fresh(maximum), es, times)
    ensures PyAcceptsAll(None, id, Fresh(maximum), es, times)
  {
    if times != [] {
      var s, t := Fresh(maximum), times[0];
      var first := Published(id, At(s, es, t));
      SnapshotsInRange(s, es, t);
      PyAcceptsLater(first, id, s, es, t, times[1..]);
      if id.cls.Agent? {
        GateAcceptsLater(Applied(NEW_GATE, first), id, s, es, t, times[1..]);
      }
    }
  }

  /** The gate after policies with the snapshots at the given times. */
  function Fed(gate: GateState, id: Identity, s: Snapshot, es: seq<Budgets.Event>, times: seq<nat>): GateState
    requires Within(times, 0, |es|)
    decreases times
  {
    if times == [] then gate else Fed(Applied(gate, Published(id, At(s, es, times[0]))), id, s, es, times[1..])
  }

  lemma {:induction false} FedLast(gate: GateState, id: Identity, s: Snapshot, es: seq<Budgets.Event>, times: seq<nat>)
    requires Within(times, 0, |es|) && times != [] && GateAcceptsAll(gate, id, s, es, times)
    ensures var g, seen := Fed(gate, id, s, es, times), At(s, es, times[|times| - 1]);
            && g.ready && g.principal == Some(id.principal) && g.revision == seen.revision
            && g.maximum == seen.maximum && g.serverOutstanding == seen.outstanding
            && g.active == gate.active && g.stopped == gate.stopped
    decreases times
  {
    if |times| > 1 {
      FedLast(Applied(gate, Published(id, At(s, es, times[0]))), id, s, es, times[1..]);
    } else {
      assert times[1..] == [];
    }
  }

  /** So a new gate that reads such documents always works with the ceiling, the revision and the outstanding work that
      its owner's budget had at the last reading. */
  lemma GateMirrorsBudget(id: Identity, maximum: nat, es: seq<Budgets.Event>, times: seq<nat>)
    requires ValidIdentity(id) && id.cls.Agent? && 1 <= maximum <= 1000 && InRange(es)
    requires PossibleRun(Fresh(maximum), es) && InOrder(times) && Within(times, 0, |es|) && times != []
    ensures var g, seen := Fed(NEW_GATE, id, Fresh(maximum), es, times), At(Fresh(maximum), es, times[|times| - 1]);
            && g.ready && g.principal == Some(id.principal) && g.revision == seen.revision
            && g.maximum == seen.maximum && g.serverOutstanding == seen.outstanding
  {
    SnapshotsAreCompatible(id, maximum, es, times);
    FedLast(NEW_GATE, id, Fresh(maximum), es, times);
  }
}
