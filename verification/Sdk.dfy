/** The adaptive Python client in direct mode (python/ai_protocol/client.py): its attempt gate and one call. */
module Sdk {
  import opened Wrappers
  import opened Descriptors
  import opened Responses
  import opened Retry
  import opened Text
  import Gates

  // ---------- The gate ----------

  datatype ClientState = ClientState(policy: Option<Gates.Policy>, active: int, ready: bool, closed: bool)

  /** Closing wins over ready, and ready comes only with a policy. */
  predicate Valid(s: ClientState) {
    && s.active >= 0
    && (s.ready ==> s.policy.Some? && !s.closed)
  }

  datatype Admission = Granted | Closed | NotPermitted | Waiting

  function Admitting(s: ClientState, name: string): Admission {
    if s.closed then Closed
    else if s.ready && s.policy.Some? && s.active < s.policy.value.maximum then
      if Offers(s.policy.value.operations, name) then Granted else NotPermitted
    else Waiting
  }

  /** What one state of the gate guarantees of every later one. */
  predicate Leads(a: ClientState, b: ClientState) {
    && (a.policy.Some? ==>
          && b.policy.Some? && b.policy.value.principal == a.policy.value.principal
          && b.policy.value.cls == a.policy.value.cls && b.policy.value.serviceId == a.policy.value.serviceId
          && a.policy.value.revision <= b.policy.value.revision
          && (a.policy.value.revision == b.policy.value.revision ==> a.policy.value.maximum == b.policy.value.maximum))
    && (a.closed ==> b.closed && b.active <= a.active)
  }

  /** A fetched document is applied, or pauses new work when it is not a valid continuation. */
  function Refreshed(s: ClientState, document: Gates.Policy): ClientState {
    if !Gates.PyAccepts(s.policy, document) then s.(ready := false)
    else if s.closed then s
    else s.(policy := Some(document), ready := true)
  }

  // ---------- The gate over whole runs ----------

  /** The client with the attempts that hold a slot. */
  datatype System = System(client: ClientState, holders: nat)

  const NEW_SYSTEM := System(ClientState(None, 0, false, false), 0)

  datatype Event = Refresh(document: Gates.Policy) | RefreshFails | Acquire(name: string) | Release | Close

  function Next(s: System, e: Event): System
    requires e.Release? ==> s.holders > 0
  {
    match e
    case Refresh(document) => s.(client := Refreshed(s.client, document))
    case RefreshFails => s.(client := s.client.(ready := false))
    case Acquire(name) =>
      if Admitting(s.client, name).Granted?
      then System(s.client.(active := s.client.active + 1), s.holders + 1) else s
    case Release => System(s.client.(active := s.client.active - 1), s.holders - 1)
    case Close => s.(client := s.client.(closed := true, ready := false))
  }

  predicate IsRun(s: System, es: seq<Event>)
    decreases es
  {
    es != [] ==> (es[0].Release? ==> s.holders > 0) && IsRun(Next(s, es[0]), es[1..])
  }

  function After(s: System, es: seq<Event>): System
    requires IsRun(s, es)
    decreases es
  {
    if es == [] then s else After(Next(s, es[0]), es[1..])
  }

  predicate Sound(s: System) {
    Valid(s.client) && s.client.active == s.holders
  }

  lemma EventSound(s: System, e: Event)
    requires Sound(s) && (e.Release? ==> s.holders > 0)
    ensures Sound(Next(s, e)) && Leads(s.client, Next(s, e).client)
    ensures Next(s, e).client.active > s.client.active ==>
              s.client.ready && !s.client.closed && Next(s, e).client.active <= s.client.policy.value.maximum
  {
  }

  /** Over any run of refreshes, failures, attempts and a close: `active` counts the attempts that hold a slot, the
      identity never changes, revisions never fall, one revision has one maximum, and after the close `active` only
      falls. */
  lemma {:induction false} RunSound(s: System, es: seq<Event>)
    requires Sound(s) && IsRun(s, es)
    ensures Sound(After(s, es)) && Leads(s.client, After(s, es).client)
    decreases es
  {
    if es != [] {
      EventSound(s, es[0]);
      RunSound(Next(s, es[0]), es[1..]);
    }
  }

  // What the client knows, and when it is ready.

  lemma {:induction false} RunSnoc(s: System, es: seq<Event>)
    requires es != [] && IsRun(s, es)
    ensures var n := |es| - 1;
            && IsRun(s, es[..n]) && (es[n].Release? ==> After(s, es[..n]).holders > 0)
            && After(s, es) == Next(After(s, es[..n]), es[n])
    decreases es
  {
    var n := |es| - 1;
    if n > 0 {
      RunSnoc(Next(s, es[0]), es[1..]);
      assert es[1..][..n - 1] == es[..n][1..];
    } else {
      assert es[1..] == [];
    }
  }

  /** The event applies a document: the client is open and the document continues what it knows. */
  predicate AppliesTo(s: System, e: Event) {
    e.Refresh? && !s.client.closed && Gates.PyAccepts(s.client.policy, e.document)
  }

  /** The event pauses the client: a refresh that fails or brings an unacceptable document, or the close. */
  predicate PausesAt(s: System, e: Event) {
    e.RefreshFails? || e.Close? || (e.Refresh? && !Gates.PyAccepts(s.client.policy, e.document))
  }

  predicate Applies(s: System, es: seq<Event>, i: nat) {
    i < |es| && IsRun(s, es[..i]) && AppliesTo(After(s, es[..i]), es[i])
  }

  predicate Pauses(s: System, es: seq<Event>, i: nat) {
    i < |es| && IsRun(s, es[..i]) && PausesAt(After(s, es[..i]), es[i])
  }

  lemma SamePrefix(s: System, es: seq<Event>)
    requires es != []
    ensures var n := |es| - 1;
            forall i | 0 <= i < n ::
              Applies(s, es[..n], i) == Applies(s, es, i) && Pauses(s, es[..n], i) == Pauses(s, es, i)
  {
    assert forall i | 0 <= i < |es| - 1 :: es[..|es| - 1][..i] == es[..i];
  }

  /** Some event after `i` pauses the client. */
  predicate Undone(s: System, es: seq<Event>, i: nat) {
    exists j | i < j < |es| :: Pauses(s, es, j)
  }

  lemma UndoneSnoc(s: System, es: seq<Event>, i: nat)
    requires i < |es| - 1
    ensures Undone(s, es, i) <==> Undone(s, es[..|es| - 1], i) || Pauses(s, es, |es| - 1)
  {
    hide Applies, Pauses;
    SamePrefix(s, es);
  }

  lemma EventTells(s: System, e: Event)
    requires e.Release? ==> s.holders > 0
    ensures var after := Next(s, e).client;
            && (AppliesTo(s, e) ==> after.ready && after.policy == Some(e.document) && !PausesAt(s, e))
            && (!AppliesTo(s, e) ==> after.policy == s.client.policy)
            && (PausesAt(s, e) ==> !after.ready)
            && (!AppliesTo(s, e) && !PausesAt(s, e) ==> after.ready == s.client.ready)
  {
    hide Gates.PyAccepts;
  }

  lemma LastEvent(es: seq<Event>)
    requires es != [] && IsRun(NEW_SYSTEM, es)
    ensures IsRun(NEW_SYSTEM, es[..|es| - 1])
    ensures var n := |es| - 1;
            var before, after := After(NEW_SYSTEM, es[..n]).client, After(NEW_SYSTEM, es).client;
            && (Applies(NEW_SYSTEM, es, n) ==> after.ready && after.policy == Some(es[n].document))
            && (!Applies(NEW_SYSTEM, es, n) ==> after.policy == before.policy)
            && (Pauses(NEW_SYSTEM, es, n) ==> !after.ready && !Applies(NEW_SYSTEM, es, n))
            && (!Applies(NEW_SYSTEM, es, n) && !Pauses(NEW_SYSTEM, es, n) ==> after.ready == before.ready)
  {
    RunSnoc(NEW_SYSTEM, es);
    hide IsRun, After, Next;
    EventTells(After(NEW_SYSTEM, es[..|es| - 1]), es[|es| - 1]);
    hide AppliesTo, PausesAt;
  }

  /** A new client is ready exactly when some document was applied and no refresh failed, no document was refused and
      no close came after it. */
  lemma {:induction false} ReadyMeans(es: seq<Event>)
    requires IsRun(NEW_SYSTEM, es)
    ensures After(NEW_SYSTEM, es).client.ready <==>
            exists i | 0 <= i < |es| :: Applies(NEW_SYSTEM, es, i) && !Undone(NEW_SYSTEM, es, i)
    decreases |es|
  {
    if es != [] {
      var n := |es| - 1;
      LastEvent(es);
      ReadyMeans(es[..n]);
      SamePrefix(NEW_SYSTEM, es);
      hide Applies, Pauses;
      assert !Undone(NEW_SYSTEM, es, n);
      forall i | 0 <= i < n
        ensures Undone(NEW_SYSTEM, es, i) <==> Undone(NEW_SYSTEM, es[..n], i) || Pauses(NEW_SYSTEM, es, n)
      {
        UndoneSnoc(NEW_SYSTEM, es, i);
      }
      hide Undone, IsRun, After;
    }
  }

  /** What a new client knows is the document applied last, if any was. */
  lemma {:induction false} KnownIsLast(es: seq<Event>) returns (last: Option<nat>)
    requires IsRun(NEW_SYSTEM, es)
    ensures last.None? ==> forall i | 0 <= i < |es| :: !Applies(NEW_SYSTEM, es, i)
    ensures last.Some? ==> last.value < |es| && Applies(NEW_SYSTEM, es, last.value)
    ensures last.Some? ==> forall i | last.value < i < |es| :: !Applies(NEW_SYSTEM, es, i)
    ensures After(NEW_SYSTEM, es).client.policy == if last.None? then None else Some(es[last.value].document)
    decreases |es|
  {
    last := None;
    if es != [] {
      var n := |es| - 1;
      LastEvent(es);
      var before := KnownIsLast(es[..n]);
      SamePrefix(NEW_SYSTEM, es);
      last := if Applies(NEW_SYSTEM, es, n) then Some(n) else before;
      assert forall i | 0 <= i < n :: Applies(NEW_SYSTEM, es[..n], i) == Applies(NEW_SYSTEM, es, i);
      assert before.Some? ==> es[before.value].Refresh?;
      hide Applies, Pauses, IsRun, After;
    }
  }

  /** The events lead from one state to the other. */
  predicate Reaches(s: System, es: seq<Event>, t: System) {
    IsRun(s, es) && After(s, es) == t
  }

  lemma {:induction false} ReachesOn(s: System, es: seq<Event>, t: System, more: seq<Event>, u: System)
    requires Reaches(s, es, t) && Reaches(t, more, u)
    ensures Reaches(s, es + more, u)
    decreases es
  {
    if es == [] {
      assert es + more == more;
    } else {
      assert (es + more)[1..] == es[1..] + more;
      ReachesOn(Next(s, es[0]), es[1..], t, more, u);
    }
  }

  lemma OneEvent(s: System, e: Event)
    requires e.Release? ==> s.holders > 0
    ensures Reaches(s, [e], Next(s, e))
  {
    assert [e][1..] == [];
  }

  // ---------- One call ----------

  /** How waiting for the gate ends: admitted, refused, or cut off by the deadline of the call. */
  datatype Gated = Admitted(validParams: bool) | GateClosed | Unpermitted | GateTimeout

  /** How an HTTP attempt ends: an answer, a transport error, or the deadline of the call. */
  datatype Attempt = Answer(response: Response) | TransportError | AttemptTimeout

  /** One turn of the loop: the gate, the attempt, the time left when the delay is checked, and whether the
      deadline cuts off the sleep. */
  datatype Turn = Turn(gate: Gated, attempt: Attempt, remaining: int, sleepTimesOut: bool)

  datatype Certainty = Unstarted | Unknown

  datatype Report = Returned(value: Json) | Failed(code: string, execution: Certainty, attempts: nat)

  /** What the network, the clock and the schema decide in one turn: how often the gate can be checked before the
      deadline, whether the parameters are valid, and the rest of a turn but its gate. */
  datatype Incident = Incident(
    patience: nat, validParams: bool, attempt: Attempt, remaining: int, sleepTimesOut: bool)

  /** The turns of a call that met these incidents and these ends of its waits at the gate. */
  ghost function Played(net: nat -> Incident, gates: seq<Gated>): nat -> Turn {
    (n: nat) => Turn(if 1 <= n <= |gates| then gates[n - 1] else GateTimeout,
                     net(n).attempt, net(n).remaining, net(n).sleepTimesOut)
  }

  /** The gateway is known not to have started attempt `n`. */
  predicate KnownUnstarted(script: nat -> Turn, n: nat) {
    script(n).attempt.Answer? && NotStarted(script(n).attempt.response)
  }

  /** A lower-case letter followed by at most 63 lower-case letters, digits or underscores. */
  predicate WireCode(s: string) {
    && 1 <= |s| <= 64 && 'a' <= s[0] <= 'z'
    && forall i | 1 <= i < |s| :: 'a' <= s[i] <= 'z' || IsDigit(s[i]) || s[i] == '_'
  }

  function ErrorCode(r: Response): string {
    if r.body.Some? && Code(r.body.value).Str? && WireCode(Code(r.body.value).s) then Code(r.body.value).s
    else "http_error"
  }

  /** The code the error object of an answer names, if there is one and it names one. */
  predicate Names(r: Response, code: string) {
    && r.body.Some? && r.body.value.Obj? && "error" in r.body.value.fields
    && r.body.value.fields["error"].Obj? && "code" in r.body.value.fields["error"].fields
    && r.body.value.fields["error"].fields["code"] == Str(code)
  }

  /** The code reported is the one the answer names when it is well formed, and `http_error` for every other answer. */
  lemma ErrorCodeIsNamed(r: Response, code: string)
    ensures Names(r, code) && WireCode(code) ==> ErrorCode(r) == code
    ensures ErrorCode(r) == code ==> code == "http_error" || (Names(r, code) && WireCode(code))
    ensures (forall c | Names(r, c) :: !WireCode(c)) ==> ErrorCode(r) == "http_error"
  {
    hide WireCode;
    if r.body.Some? && Code(r.body.value).Str? {
      assert Names(r, Code(r.body.value).s);
    }
  }

  function Received(script: nat -> Turn, n: nat): Option<Response> {
    if script(n).attempt.Answer? then Some(script(n).attempt.response) else None
  }

  /** Attempt `n` was answered and may be followed by another one, but for the deadline. */
  predicate Retryable(script: nat -> Turn, n: nat) {
    1 <= n < MAX_ATTEMPTS && Received(script, n).Some? && SafeToRetry(Received(script, n).value)
  }

  /** Before the attempt after `n` the call slept as long as it was asked to, within the deadline. */
  predicate Slept(script: nat -> Turn, n: nat) {
    Retryable(script, n) && Seconds(Received(script, n).value) < script(n).remaining && !script(n).sleepTimesOut
  }

  /** The call gave up before sending attempt `n`: at the gate, for its parameters, or at the deadline. */
  predicate GaveUpBefore(script: nat -> Turn, n: nat, code: string) {
    && n <= MAX_ATTEMPTS
    && match script(n).gate
       case GateClosed => code == "client_closed"
       case Unpermitted => code == "operation_not_permitted"
       case GateTimeout => code == "task_deadline"
       case Admitted(valid) => !valid && code == "invalid_parameters"
  }

  /** The call gave up after attempt `n`: on its transport, its body, its error, or at the deadline. */
  predicate GaveUpAfter(script: nat -> Turn, n: nat, code: string) {
    && n >= 1 && script(n).gate == Admitted(true)
    && match script(n).attempt
       case TransportError => code == "transport_error"
       case AttemptTimeout => code == "task_deadline"
       case Answer(r) =>
         if IsSuccess(r.status) then r.body.None? && code == "invalid_response"
         else if Retryable(script, n) then
           code == "task_deadline" && (Seconds(r) >= script(n).remaining || script(n).sleepTimesOut)
         else code == ErrorCode(r)
  }

  /** What a call that sent `sent` attempts may conclude. Between attempts it slept, and it fails only for cause.
      A failure is reported as not started exactly when the gateway is known not to have started any attempt sent,
      also when the deadline falls while waiting for the gate or before a retry. The reported count is the number
      of attempts sent, except that a refusal by the gate reports none. */
  ghost predicate Concludes(script: nat -> Turn, report: Report, sent: nat) {
    && sent <= MAX_ATTEMPTS
    && (forall n | 1 <= n < sent :: Slept(script, n))
    && (report.Returned? ==>
          sent >= 1 && Received(script, sent).Some?
          && IsSuccess(Received(script, sent).value.status)
          && Received(script, sent).value.body == Some(report.value))
    && (report.Failed? ==>
          || GaveUpAfter(script, sent, report.code)
          || ((sent > 0 ==> Slept(script, sent)) && GaveUpBefore(script, sent + 1, report.code)))
    && (report.Failed? ==> (report.execution.Unstarted? <==> forall n | 1 <= n <= sent :: KnownUnstarted(script, n)))
    && (report.Failed? && report.attempts != sent ==>
          report.attempts == 0 && report.code in {"client_closed", "operation_not_permitted"})
  }

  /** Of the attempts sent, all but the last are known not to have started. */
  lemma EarlierAreKnown(script: nat -> Turn, report: Report, sent: nat)
    requires Concludes(script, report, sent)
    ensures forall n | 1 <= n < sent :: KnownUnstarted(script, n)
  {
    forall n | 1 <= n < sent
      ensures KnownUnstarted(script, n)
    {
      assert Slept(script, n);
      ClassifiersAgree(script(n).attempt.response);
    }
  }

  /** One more gate changes nothing about the answers. */
  lemma Replayed(net: nat -> Incident, gates: seq<Gated>, gate: Gated)
    ensures forall n ::
              && KnownUnstarted(Played(net, gates + [gate]), n) == KnownUnstarted(Played(net, gates), n)
              && Slept(Played(net, gates + [gate]), n) == Slept(Played(net, gates), n)
    ensures Played(net, gates + [gate])(|gates| + 1).gate == gate
  {
  }

  /** Giving up before the next attempt, when all so far are known not to have started. */
  lemma ConcludesBefore(script: nat -> Turn, code: string, attempts: nat, sent: nat)
    requires sent < MAX_ATTEMPTS && GaveUpBefore(script, sent + 1, code)
    requires forall n | 1 <= n <= sent :: KnownUnstarted(script, n) && Slept(script, n)
    requires attempts == sent || (attempts == 0 && code in {"client_closed", "operation_not_permitted"})
    ensures Concludes(script, Failed(code, Unstarted, attempts), sent)
  {
    hide KnownUnstarted, Slept, GaveUpBefore;
  }

  /** Ending after the last attempt, when all before it are known not to have started. */
  lemma ConcludesAfter(script: nat -> Turn, report: Report, sent: nat)
    requires 1 <= sent <= MAX_ATTEMPTS
    requires forall n | 1 <= n < sent :: KnownUnstarted(script, n) && Slept(script, n)
    requires report.Returned? ==>
               Received(script, sent).Some? && IsSuccess(Received(script, sent).value.status)
               && Received(script, sent).value.body == Some(report.value)
    requires report.Failed? ==>
               GaveUpAfter(script, sent, report.code) && report.attempts == sent
               && (report.execution.Unstarted? <==> KnownUnstarted(script, sent))
    ensures Concludes(script, report, sent)
  {
    hide KnownUnstarted, Slept, GaveUpAfter, Received;
  }

  // ---------- The client ----------

  class AsyncClient {
    var state: ClientState
    /** The slots held by other calls. */
    var theirs: nat

    constructor ()
      ensures state == ClientState(None, 0, false, false) && theirs == 0 && Valid(state)
    {
      state, theirs := ClientState(None, 0, false, false), 0;
    }

    /** The client while this call holds `mine` slots. */
    ghost function With(mine: nat): System
      reads this
    {
      System(state, theirs + mine)
    }

    /** The end of a refresh that fetched a document. */
    method Refresh(document: Gates.Policy) returns (ok: bool)
      requires Valid(state)
      modifies this`state
      ensures Valid(state) && state == Refreshed(old(state), document)
      ensures ok == Gates.PyAccepts(old(state).policy, document)
      ensures ok && !old(state).closed ==> state == old(state).(policy := Some(document), ready := true)
      ensures ok && old(state).closed ==> state == old(state)
      ensures !ok ==> state == old(state).(ready := false)
    {
      ok := Gates.PyAccepts(state.policy, document);
      if !ok {
        state := state.(ready := false);
      } else if !state.closed {
        state := state.(policy := Some(document), ready := true);
      }
    }

    /** A refresh that failed for any other reason pauses new work. */
    method RefreshFailed()
      requires Valid(state)
      modifies this`state
      ensures Valid(state) && state == old(state).(ready := false)
    {
      state := state.(ready := false);
    }

    /** One check of `_acquire` under the condition's lock. */
    method TryAcquire(name: string) returns (admission: Admission)
      requires Valid(state)
      modifies this`state
      ensures Valid(state) && admission == Admitting(old(state), name)
      ensures admission.Closed? <==> old(state).closed
      ensures admission.Granted? || admission.NotPermitted? <==>
              !old(state).closed && old(state).ready && old(state).active < old(state).policy.value.maximum
      ensures admission.Granted? ==>
                exists i :: 0 <= i < |old(state).policy.value.operations|
                            && Field(old(state).policy.value.operations[i], "name") == Str(name)
      ensures admission.NotPermitted? ==>
                forall i | 0 <= i < |old(state).policy.value.operations| ::
                  Field(old(state).policy.value.operations[i], "name") != Str(name)
      ensures state == if admission.Granted? then old(state).(active := old(state.active) + 1) else old(state)
    {
      if state.closed {
        return Closed;
      }
      if state.ready && state.active < state.policy.value.maximum {
        if !Offers(state.policy.value.operations, name) {
          return NotPermitted;
        }
        state := state.(active := state.active + 1);
        return Granted;
      }
      admission := Waiting;
    }

    method Release()
      requires Valid(state) && state.active > 0
      modifies this`state
      ensures Valid(state) && state == old(state).(active := old(state.active) - 1)
    {
      state := state.(active := state.active - 1);
    }

    method Close()
      requires Valid(state)
      modifies this`state
      ensures Valid(state) && state == old(state).(closed := true, ready := false)
    {
      state := state.(closed := true, ready := false);
    }

    /** One event of another coroutine; a slot is given back only by a call that holds one. */
    method Other(e: Event, mine: nat) returns (ghost es: seq<Event>)
      requires Sound(With(mine))
      modifies this
      ensures Sound(With(mine)) && Reaches(old(With(mine)), es, With(mine))
    {
      es := [e];
      if !e.Release? || theirs > 0 {
        OneEvent(With(mine), e);
      }
      match e {
        case Refresh(document) => {
          var ok := Refresh(document);
        }
        case RefreshFails => RefreshFailed();
        case Acquire(name) => {
          var admission := TryAcquire(name);
          theirs := if admission.Granted? then theirs + 1 else theirs;
        }
        case Release => {
          if theirs > 0 {
            Release();
            theirs := theirs - 1;
          } else {
            es := [];
          }
        }
        case Close => Close();
      }
    }

    /** Whatever other coroutines do while this one awaits. */
    method Others(mine: nat) returns (ghost es: seq<Event>)
      requires Sound(With(mine))
      modifies this
      ensures Sound(With(mine)) && Reaches(old(With(mine)), es, With(mine))
    {
      es := [];
      var n: nat :| true;
      for i := 0 to n
        invariant Sound(With(mine)) && Reaches(old(With(mine)), es, With(mine))
      {
        hide Reaches, Sound;
        ghost var before := With(mine);
        var e: Event := *;
        ghost var more := Other(e, mine);
        ReachesOn(old(With(mine)), es, before, more, With(mine));
        es := es + more;
      }
    }

    /** Wait at the gate: check, and let others go on, until admitted, refused or out of time. */
    method Acquire(name: string, patience: nat, validParams: bool) returns (gate: Gated, ghost es: seq<Event>)
      requires Sound(With(0))
      modifies this
      ensures Sound(With(if gate.Admitted? then 1 else 0))
      ensures Reaches(old(With(0)), es, With(if gate.Admitted? then 1 else 0))
      ensures gate.Admitted? ==> gate == Admitted(validParams)
      ensures gate.GateClosed? ==> state.closed
    {
      es := [];
      for i := 0 to patience
        invariant Sound(With(0)) && Reaches(old(With(0)), es, With(0))
      {
        ghost var before := With(0);
        var admission := TryAcquire(name);
        match admission {
          case Closed => return GateClosed, es;
          case NotPermitted => return Unpermitted, es;
          case Granted => {
            OneEvent(before, Event.Acquire(name));
            ReachesOn(old(With(0)), es, before, [Event.Acquire(name)], With(1));
            return Admitted(validParams), es + [Event.Acquire(name)];
          }
          case Waiting =>
        }
        hide Reaches, Sound;
        ghost var more := Others(0);
        ReachesOn(old(With(0)), es, before, more, With(0));
        es := es + more;
      }
      gate := GateTimeout;
    }

    /** The end of an attempt: others may go on first, then its slot is given back. */
    method Finish() returns (ghost es: seq<Event>)
      requires Sound(With(1))
      modifies this
      ensures Sound(With(0)) && Reaches(old(With(1)), es, With(0))
    {
      es := Others(1);
      ghost var before := With(1);
      OneEvent(before, Event.Release);
      Release();
      ReachesOn(old(With(1)), es, before, [Event.Release], With(0));
      es := es + [Event.Release];
    }

    /** What an attempt means for the call: it ends with a report, or every attempt so far is known not to have
        started and the call has slept before the next. */
    static method Judge(number: nat, incident: Incident, ghost script: nat -> Turn)
      returns (ending: Option<Report>, mayHaveExecuted: bool)
      requires 1 <= number <= MAX_ATTEMPTS
      requires script(number) == Turn(Admitted(true), incident.attempt, incident.remaining, incident.sleepTimesOut)
      ensures ending.None? ==> !mayHaveExecuted && KnownUnstarted(script, number) && Slept(script, number)
      ensures ending.Some? && ending.value.Returned? ==>
                && Received(script, number).Some? && IsSuccess(Received(script, number).value.status)
                && Received(script, number).value.body == Some(ending.value.value)
      ensures ending.Some? && ending.value.Failed? ==>
                && GaveUpAfter(script, number, ending.value.code) && ending.value.attempts == number
                && (ending.value.execution.Unstarted? <==> KnownUnstarted(script, number))
    {
      mayHaveExecuted := true;
      if incident.attempt.TransportError? {
        return Some(Failed("transport_error", Unknown, number)), mayHaveExecuted;
      }
      if incident.attempt.AttemptTimeout? {
        return Some(Failed("task_deadline", if mayHaveExecuted then Unknown else Unstarted, number)), mayHaveExecuted;
      }
      var response := incident.attempt.response;
      ClassifiersAgree(response);
      if IsSuccess(response.status) {
        ending := Some(if response.body.None? then Failed("invalid_response", Unknown, number)
                       else Returned(response.body.value));
        return;
      }
      mayHaveExecuted := !PyKnown(response);
      hide NotStarted, SafeToRetry, PyKnown, PySafeToRetry, ErrorCode, Seconds;
      if !PySafeToRetry(response) || number == MAX_ATTEMPTS {
        ending := Some(Failed(ErrorCode(response), if mayHaveExecuted then Unknown else Unstarted, number));
        return;
      }
      if Seconds(response) >= incident.remaining {
        return Some(Failed("task_deadline", Unstarted, number)), mayHaveExecuted;
      }
      if incident.sleepTimesOut {
        return Some(Failed("task_deadline", if mayHaveExecuted then Unknown else Unstarted, number)), mayHaveExecuted;
      }
      ending := None;
    }

    /** One turn at the gate: a slot that was taken is given back when the attempt is over. */
    method Pass(name: string, patience: nat, validParams: bool) returns (gate: Gated, ghost es: seq<Event>)
      requires Sound(With(0))
      modifies this
      ensures Sound(With(0)) && Reaches(old(With(0)), es, With(0))
      ensures gate.Admitted? ==> gate == Admitted(validParams)
      ensures gate.GateClosed? ==> state.closed
    {
      hide Reaches, Sound;
      gate, es := Acquire(name, patience, validParams);
      if gate.Admitted? {
        ghost var at := With(1);
        ghost var more := Finish();
        ReachesOn(old(With(0)), es, at, more, With(0));
        es := es + more;
      }
    }

    /** One call with one deadline and at most five attempts, among other calls, refreshes and a close. Every slot it
        takes is given back: from first to last it is a run of the gate, and it ends holding none. */
    method Call(name: string, net: nat -> Incident)
      returns (report: Report, sent: nat, ghost gates: seq<Gated>, ghost es: seq<Event>)
      requires Sound(With(0))
      modifies this
      ensures Sound(With(0)) && Reaches(old(With(0)), es, With(0))
      ensures Concludes(Played(net, gates), report, sent)
      ensures gates != [] && gates[|gates| - 1].GateClosed? ==> state.closed
    {
      sent, gates, es := 0, [], [];
      var mayHaveExecuted := false;
      for number := 1 to MAX_ATTEMPTS + 1
        invariant Sound(With(0)) && Reaches(old(With(0)), es, With(0))
        invariant number <= MAX_ATTEMPTS && sent == |gates| == number - 1 && !mayHaveExecuted
        invariant forall n | 1 <= n <= sent ::
                    KnownUnstarted(Played(net, gates), n) && Slept(Played(net, gates), n)
      {
        hide Reaches, Sound, Received, GaveUpAfter, KnownUnstarted, Slept, Concludes;
        var incident := net(number);
        ghost var at, more := With(0), [];
        var gate;
        gate, more := Pass(name, incident.patience, incident.validParams);
        ReachesOn(old(With(0)), es, at, more, With(0));
        Replayed(net, gates, gate);
        es, gates := es + more, gates + [gate];
        ghost var script := Played(net, gates);
        match gate {
          case GateClosed =>
            ConcludesBefore(script, "client_closed", 0, sent);
            return Failed("client_closed", Unstarted, 0), sent, gates, es;
          case Unpermitted =>
            ConcludesBefore(script, "operation_not_permitted", 0, sent);
            return Failed("operation_not_permitted", Unstarted, 0), sent, gates, es;
          case GateTimeout =>
            ConcludesBefore(script, "task_deadline", sent, sent);
            return Failed("task_deadline", if mayHaveExecuted then Unknown else Unstarted, sent), sent, gates, es;
          case Admitted(_) =>
        }
        if !incident.validParams {
          ConcludesBefore(script, "invalid_parameters", sent, sent);
          return Failed("invalid_parameters", Unstarted, sent), sent, gates, es;
        }
        sent := number;
        var ending;
        ending, mayHaveExecuted := Judge(number, incident, script);
        if ending.Some? {
          ConcludesAfter(script, ending.value, sent);
          return ending.value, sent, gates, es;
        }
        at := With(0);
        more := Others(0);
        ReachesOn(old(With(0)), es, at, more, With(0));
        es := es + more;
      }
      assert false;
    }
  }
}
