/** The coroutines that wait at the attempt gate of the Python client (python/ai_protocol/client.py): whatever changes
    the gate notifies them all, and none of them misses a change. */
module Waiters {
  import opened Sdk

  /** A coroutine in `_acquire`: about to check the gate under the lock, or parked on the condition. */
  datatype Waiter = Checking(name: string) | Parked(name: string)

  datatype Hall = Hall(system: System, waiters: map<nat, Waiter>)

  /** Abandon: a deadline or a cancellation takes the waiter away, parked or not. */
  datatype Move =
    | Change(event: Event)
    | Arrive(waiter: nat, name: string)
    | Check(waiter: nat)
    | Abandon(waiter: nat)

  /** Only a check takes a slot; every other event happens around the waiters. */
  predicate Enabled(h: Hall, m: Move) {
    match m
    case Change(e) => !e.Acquire? && (e.Release? ==> h.system.holders > 0)
    case Arrive(w, _) => w !in h.waiters
    case Check(w) => w in h.waiters && h.waiters[w].Checking?
    case Abandon(w) => w in h.waiters
  }

  /** The event notifies under the lock. A document that is applied to a closed client changes nothing, and notifies
      nobody; nor does a slot that is taken. */
  predicate Notifies(s: System, e: Event) {
    match e
    case Refresh(document) => !s.client.closed || !Gates.PyAccepts(s.client.policy, document)
    case Acquire(_) => false
    case _ => true
  }

  function Woken(waiters: map<nat, Waiter>): map<nat, Waiter> {
    map w | w in waiters :: Checking(waiters[w].name)
  }

  function Next(h: Hall, m: Move): Hall
    requires Enabled(h, m)
  {
    match m
    case Change(e) =>
      Hall(Sdk.Next(h.system, e), if Notifies(h.system, e) then Woken(h.waiters) else h.waiters)
    case Arrive(w, name) => h.(waiters := h.waiters[w := Checking(name)])
    case Check(w) =>
      var name := h.waiters[w].name;
      Hall(Sdk.Next(h.system, Event.Acquire(name)),
           if Admitting(h.system.client, name).Waiting? then h.waiters[w := Parked(name)] else h.waiters - {w})
    case Abandon(w) => h.(waiters := h.waiters - {w})
  }

  ghost predicate IsRun(h: Hall, ms: seq<Move>)
    decreases ms
  {
    ms != [] ==> Enabled(h, ms[0]) && IsRun(Next(h, ms[0]), ms[1..])
  }

  ghost function After(h: Hall, ms: seq<Move>): Hall
    requires IsRun(h, ms)
    decreases ms
  {
    if ms == [] then h else After(Next(h, ms[0]), ms[1..])
  }

  /** Slots are counted, and whoever is parked would neither be admitted nor be refused if it checked now. */
  ghost predicate Settled(h: Hall) {
    && Sound(h.system)
    && forall w | w in h.waiters && h.waiters[w].Parked? :: Admitting(h.system.client, h.waiters[w].name).Waiting?
  }

  /** What a move means for the gate. */
  function EventsOf(h: Hall, m: Move): seq<Event>
    requires Enabled(h, m)
  {
    match m
    case Change(e) => [e]
    case Check(w) => [Event.Acquire(h.waiters[w].name)]
    case _ => []
  }

  lemma MoveSettled(h: Hall, m: Move)
    requires Settled(h) && Enabled(h, m)
    ensures Settled(Next(h, m)) && Reaches(h.system, EventsOf(h, m), Next(h, m).system)
  {
    match m
    case Change(e) =>
      EventSound(h.system, e);
      OneEvent(h.system, e);
    case Check(w) =>
      var e := Event.Acquire(h.waiters[w].name);
      EventSound(h.system, e);
      OneEvent(h.system, e);
    case _ =>
  }

  /** In every run of the gate with any number of waiters, nobody is parked while a slot is free, or after a close:
      no refresh, release or close is missed. The run is one of the gate, so all that holds of its runs holds here. */
  lemma {:induction false} NothingMissed(h: Hall, ms: seq<Move>) returns (es: seq<Event>)
    requires Settled(h) && IsRun(h, ms)
    ensures Settled(After(h, ms)) && Reaches(h.system, es, After(h, ms).system)
    ensures Leads(h.system.client, After(h, ms).system.client)
    ensures var client := After(h, ms).system.client;
            client.closed || (client.ready && client.active < client.policy.value.maximum)
            ==> forall w | w in After(h, ms).waiters :: After(h, ms).waiters[w].Checking?
    decreases ms
  {
    if ms == [] {
      es := [];
    } else {
      var t := Next(h, ms[0]);
      MoveSettled(h, ms[0]);
      es := NothingMissed(t, ms[1..]);
      ReachesOn(h.system, EventsOf(h, ms[0]), t.system, es, After(h, ms).system);
      es := EventsOf(h, ms[0]) + es;
      RunSound(h.system, es);
    }
  }
}
