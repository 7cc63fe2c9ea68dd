/** The values behind the two class queues: waiting jobs, their removal, and the selection rule
    (src/queue.rs). The `Queues` class and the gateway protocol share these definitions. */
module Queueing {
  import opened Wrappers
  import opened Budgets
  import opened Responses

  datatype Mode = Weighted | Fifo

  /** `reply` names the caller's one-shot channel, `permit` the budget a permit was taken from. */
  datatype Job = Job(reply: nat, permit: Key, acceptedAt: nat, maxWait: nat, order: nat) {
    function Deadline(): nat {
      acceptedAt + maxWait
    }
  }

  datatype Waiting = Waiting(interactive: seq<Job>, agents: seq<Job>) {
    function Of(cls: Class): seq<Job> {
      if cls.Interactive? then interactive else agents
    }

    function With(cls: Class, jobs: seq<Job>): Waiting {
      if cls.Interactive? then this.(interactive := jobs) else this.(agents := jobs)
    }

    function Size(): nat {
      |interactive| + |agents|
    }
  }

  datatype Answer = Answer(caller: nat, response: Response)

  // ---------- Tallies ----------

  function RemoveAt<T>(s: seq<T>, i: nat): (left: seq<T>)
    requires i < |s|
    ensures |left| == |s| - 1
  {
    s[..i] + s[i + 1..]
  }

  function Replies(jobs: seq<Job>): seq<nat> {
    seq(|jobs|, i requires 0 <= i < |jobs| => jobs[i].reply)
  }

  function Permits(jobs: seq<Job>): seq<Key> {
    seq(|jobs|, i requires 0 <= i < |jobs| => jobs[i].permit)
  }

  /** How many of the jobs answer to caller `c`. */
  function Count(jobs: seq<Job>, c: nat): nat {
    multiset(Replies(jobs))[c]
  }

  /** How many permits of budget `key` the jobs hold. */
  function Held(jobs: seq<Job>, key: Key): nat {
    multiset(Permits(jobs))[key]
  }

  lemma MultisetRemoveAt<T>(s: seq<T>, i: nat)
    requires i < |s|
    ensures multiset(s) == multiset(RemoveAt(s, i)) + multiset{s[i]}
  {
    assert s == s[..i] + [s[i]] + s[i + 1..];
  }

  lemma TallyRemove(jobs: seq<Job>, i: nat)
    requires i < |jobs|
    ensures forall c :: Count(RemoveAt(jobs, i), c) == Count(jobs, c) - (if jobs[i].reply == c then 1 else 0)
    ensures forall k :: Held(RemoveAt(jobs, i), k) == Held(jobs, k) - (if jobs[i].permit == k then 1 else 0)
  {
    assert Replies(RemoveAt(jobs, i)) == RemoveAt(Replies(jobs), i);
    assert Permits(RemoveAt(jobs, i)) == RemoveAt(Permits(jobs), i);
    MultisetRemoveAt(Replies(jobs), i);
    MultisetRemoveAt(Permits(jobs), i);
  }

  lemma TallyAppend(jobs: seq<Job>, job: Job)
    ensures forall c :: Count(jobs + [job], c) == Count(jobs, c) + (if job.reply == c then 1 else 0)
    ensures forall k :: Held(jobs + [job], k) == Held(jobs, k) + (if job.permit == k then 1 else 0)
  {
    assert Replies(jobs + [job]) == Replies(jobs) + [job.reply];
    assert Permits(jobs + [job]) == Permits(jobs) + [job.permit];
  }

  lemma CountPositive(jobs: seq<Job>, c: nat)
    ensures Count(jobs, c) > 0 <==> exists i :: 0 <= i < |jobs| && jobs[i].reply == c
  {
    assert forall i | 0 <= i < |jobs| :: Replies(jobs)[i] == jobs[i].reply;
    assert Count(jobs, c) > 0 <==> c in Replies(jobs);
  }

  lemma HeldPositive(jobs: seq<Job>, i: nat)
    requires i < |jobs|
    ensures Held(jobs, jobs[i].permit) > 0
  {
    assert Permits(jobs)[i] == jobs[i].permit;
  }

  // ---------- Removals ----------

  /** Why a job leaves its queue without being handed off: its caller left, its deadline passed, or the
      gateway was dropped. */
  datatype Reason = Gone | Expired | Refused

  datatype Removal = Removal(cls: Class, index: nat, job: Job, reason: Reason)

  /** Waiting jobs, budgets and answers sent so far. */
  datatype Books = Books(waiting: Waiting, ledger: Ledger, answers: seq<Answer>)

  function Notice(r: Removal): seq<Answer> {
    match r.reason
    case Gone => []
    case Expired => [Answer(r.job.reply, QueueTimeout())]
    case Refused => [Answer(r.job.reply, GatewayClosed())]
  }

  predicate Removable(b: Books, r: Removal) {
    r.index < |b.waiting.Of(r.cls)| && b.waiting.Of(r.cls)[r.index] == r.job
  }

  /** One job leaves: its permit is released, then its caller is answered if there is an answer. */
  function Remove(b: Books, r: Removal): Books
    requires Removable(b, r)
  {
    Books(b.waiting.With(r.cls, RemoveAt(b.waiting.Of(r.cls), r.index)),
          Release1(b.ledger, r.job.permit),
          b.answers + Notice(r))
  }

  predicate AllRemovable(b: Books, rs: seq<Removal>)
    decreases rs
  {
    rs != [] ==> Removable(b, rs[0]) && AllRemovable(Remove(b, rs[0]), rs[1..])
  }

  function RemoveAll(b: Books, rs: seq<Removal>): Books
    requires AllRemovable(b, rs)
    decreases rs
  {
    if rs == [] then b else RemoveAll(Remove(b, rs[0]), rs[1..])
  }

  /** The removals lead from one state of the books to the other. */
  predicate Removes(b: Books, rs: seq<Removal>, c: Books) {
    AllRemovable(b, rs) && RemoveAll(b, rs) == c
  }

  lemma RemovesHead(b: Books, rs: seq<Removal>, c: Books)
    requires rs != []
    ensures Removes(b, rs, c) <==> Removable(b, rs[0]) && Removes(Remove(b, rs[0]), rs[1..], c)
  {
  }

  lemma {:induction false} RemovesOn(b: Books, rs: seq<Removal>, c: Books, more: seq<Removal>, d: Books)
    requires Removes(b, rs, c) && Removes(c, more, d)
    ensures Removes(b, rs + more, d)
    decreases |rs|
  {
    if rs == [] {
      assert rs + more == more;
    } else {
      hide Removes, Remove, Removable;
      RemovesHead(b, rs, c);
      RemovesOn(Remove(b, rs[0]), rs[1..], c, more, d);
      assert (rs + more)[1..] == rs[1..] + more;
      RemovesHead(b, rs + more, d);
    }
  }

  lemma RemoveAllConcat(b: Books, rs: seq<Removal>, more: seq<Removal>)
    requires AllRemovable(b, rs) && AllRemovable(RemoveAll(b, rs), more)
    ensures AllRemovable(b, rs + more) && RemoveAll(b, rs + more) == RemoveAll(RemoveAll(b, rs), more)
  {
    RemovesOn(b, rs, RemoveAll(b, rs), more, RemoveAll(RemoveAll(b, rs), more));
  }

  lemma RemoveAllSnoc(b: Books, rs: seq<Removal>, r: Removal)
    requires AllRemovable(b, rs) && Removable(RemoveAll(b, rs), r)
    ensures AllRemovable(b, rs + [r]) && RemoveAll(b, rs + [r]) == Remove(RemoveAll(b, rs), r)
  {
    RemoveAllConcat(b, rs, [r]);
  }

  lemma {:induction false} RemovalShrinks(b: Books, rs: seq<Removal>)
    requires AllRemovable(b, rs)
    ensures RemoveAll(b, rs).waiting.Size() == b.waiting.Size() - |rs|
    decreases rs
  {
    if rs != [] {
      RemovalShrinks(Remove(b, rs[0]), rs[1..]);
    }
  }

  predicate Known(jobs: seq<Job>, ledger: Ledger) {
    forall i | 0 <= i < |jobs| :: jobs[i].permit in ledger
  }

  /** Every waiting job's permit is counted, so releasing it cannot underflow. */
  ghost predicate Covered(b: Books) {
    && Known(b.waiting.interactive, b.ledger)
    && Known(b.waiting.agents, b.ledger)
    && forall k :: k in b.ledger ==>
         b.ledger[k].outstanding >= Held(b.waiting.interactive, k) + Held(b.waiting.agents, k)
  }

  lemma RemoveCovered(b: Books, r: Removal)
    requires Covered(b) && Removable(b, r)
    ensures r.job.permit in b.ledger && b.ledger[r.job.permit].outstanding > 0
    ensures Covered(Remove(b, r))
  {
    var jobs, left := b.waiting.Of(r.cls), Remove(b, r);
    HeldPositive(jobs, r.index);
    TallyRemove(jobs, r.index);
    assert Known(left.waiting.Of(r.cls), left.ledger);
    hide Known;
    hide RemoveAt;
  }

  // ---------- The stable filter ----------

  /** Open and unexpired. */
  predicate Stays(job: Job, gone: set<nat>, now: nat) {
    job.reply !in gone && job.Deadline() > now
  }

  predicate AllStay(jobs: seq<Job>, gone: set<nat>, now: nat) {
    forall i | 0 <= i < |jobs| :: Stays(jobs[i], gone, now)
  }

  function Survivors(jobs: seq<Job>, gone: set<nat>, now: nat): seq<Job> {
    if jobs == [] then []
    else (if Stays(jobs[0], gone, now) then [jobs[0]] else []) + Survivors(jobs[1..], gone, now)
  }

  lemma {:induction false} SurvivorsSkip(jobs: seq<Job>, i: nat, gone: set<nat>, now: nat)
    requires i < |jobs| && !Stays(jobs[i], gone, now)
    ensures Survivors(RemoveAt(jobs, i), gone, now) == Survivors(jobs, gone, now)
  {
    if i == 0 {
      assert RemoveAt(jobs, i) == jobs[1..];
    } else {
      assert RemoveAt(jobs, i)[1..] == RemoveAt(jobs[1..], i - 1);
      SurvivorsSkip(jobs[1..], i - 1, gone, now);
    }
  }

  lemma {:induction false} SurvivorsAll(jobs: seq<Job>, gone: set<nat>, now: nat)
    requires AllStay(jobs, gone, now)
    ensures Survivors(jobs, gone, now) == jobs
  {
    if jobs != [] {
      SurvivorsAll(jobs[1..], gone, now);
    }
  }

  /** Removing one by one only jobs that must not stay, until only jobs that stay are left, is the stable
      filter, whatever the order of the removals. */
  lemma {:induction false} RemovingIsFiltering(b: Books, rs: seq<Removal>, cls: Class, gone: set<nat>, now: nat)
    requires AllRemovable(b, rs)
    requires forall r | r in rs && r.cls == cls :: !Stays(r.job, gone, now)
    requires AllStay(RemoveAll(b, rs).waiting.Of(cls), gone, now)
    ensures RemoveAll(b, rs).waiting.Of(cls) == Survivors(b.waiting.Of(cls), gone, now)
  {
    SurvivorsAll(RemoveAll(b, rs).waiting.Of(cls), gone, now);
    RemovingKeepsSurvivors(b, rs, cls, gone, now);
  }

  lemma {:induction false} RemovingKeepsSurvivors(b: Books, rs: seq<Removal>, cls: Class, gone: set<nat>, now: nat)
    requires AllRemovable(b, rs)
    requires forall r | r in rs && r.cls == cls :: !Stays(r.job, gone, now)
    ensures Survivors(RemoveAll(b, rs).waiting.Of(cls), gone, now) == Survivors(b.waiting.Of(cls), gone, now)
    decreases rs
  {
    if rs != [] {
      RemovingKeepsSurvivors(Remove(b, rs[0]), rs[1..], cls, gone, now);
      if rs[0].cls == cls {
        SurvivorsSkip(b.waiting.Of(cls), rs[0].index, gone, now);
      }
    }
  }

  function Everywhere(w: Waiting, c: nat): nat {
    Count(w.interactive, c) + Count(w.agents, c)
  }

  ghost predicate Distinct(w: Waiting) {
    forall c :: Everywhere(w, c) <= 1
  }

  /** Removal never adds a caller, and a removed caller is no longer waiting. */
  lemma {:induction false} RemovedAreGone(b: Books, rs: seq<Removal>)
    requires AllRemovable(b, rs) && Distinct(b.waiting)
    ensures forall c :: Everywhere(RemoveAll(b, rs).waiting, c) <= Everywhere(b.waiting, c)
    ensures forall r | r in rs :: Everywhere(RemoveAll(b, rs).waiting, r.job.reply) == 0
    decreases rs
  {
    if rs != [] {
      var next := Remove(b, rs[0]);
      TallyRemove(b.waiting.Of(rs[0].cls), rs[0].index);
      assert forall c :: Everywhere(next.waiting, c) <= Everywhere(b.waiting, c);
      RemovedAreGone(next, rs[1..]);
      assert Everywhere(next.waiting, rs[0].job.reply) == Everywhere(b.waiting, rs[0].job.reply) - 1;
    }
  }

  // ---------- Selection ----------

  /** The class the next hand-off is taken from. */
  function Chosen(mode: Mode, streak: nat, w: Waiting): (cls: Option<Class>)
    ensures cls.Some? ==> w.Of(cls.value) != []
    ensures cls.None? <==> w.Size() == 0
  {
    if w.interactive == [] && w.agents == [] then None
    else if w.interactive == [] then Some(Agent)
    else if w.agents == [] then Some(Interactive)
    else if mode.Fifo? then
      if w.interactive[0].order < w.agents[0].order then Some(Interactive) else Some(Agent)
    else
      if streak < 3 then Some(Interactive) else Some(Agent)
  }

  /** First come, first served takes the smaller admission number of the two fronts; the weighted rule takes an
      interactive job, unless three in a row already went before a waiting agent job. */
  lemma SelectionRule(mode: Mode, streak: nat, w: Waiting)
    ensures Chosen(mode, streak, w) == None <==> w.interactive == [] && w.agents == []
    ensures mode.Fifo? ==> forall cls, other ::
              Chosen(mode, streak, w) == Some(cls) && w.Of(other) != [] ==> w.Of(cls)[0].order <= w.Of(other)[0].order
    ensures mode.Weighted? ==>
              (Chosen(mode, streak, w) == Some(Interactive) <==> w.interactive != [] && (w.agents == [] || streak < 3))
  {
  }

  /** The streak after a hand-off: it grows only in weighted mode, when an interactive job goes first while
      an agent job waits. */
  function NextStreak(mode: Mode, streak: nat, w: Waiting, cls: Class): nat {
    if mode.Weighted? && w.interactive != [] && w.agents != [] && cls.Interactive? then streak + 1 else 0
  }

  lemma StreakRule(mode: Mode, streak: nat, w: Waiting, cls: Class)
    ensures NextStreak(mode, streak, w, cls) ==
            if mode == Weighted && cls == Interactive && w.interactive != [] && w.agents != [] then streak + 1 else 0
  {
  }

  /** The books after the front job of class `cls` has left its queue with its permit. */
  function Popped(b: Books, cls: Class): Books
    requires b.waiting.Of(cls) != []
  {
    b.(waiting := b.waiting.With(cls, b.waiting.Of(cls)[1..]))
  }

  lemma PoppedCovered(b: Books, cls: Class)
    requires Covered(b) && b.waiting.Of(cls) != []
    ensures Covered(Popped(b, cls))
    ensures var key := b.waiting.Of(cls)[0].permit;
            key in b.ledger && b.ledger[key].outstanding > 0
    ensures RemoveAt(b.waiting.Of(cls), 0) == b.waiting.Of(cls)[1..]
  {
    assert RemoveAt(b.waiting.Of(cls), 0) == b.waiting.Of(cls)[1..];
    HeldPositive(b.waiting.Of(cls), 0);
    TallyRemove(b.waiting.Of(cls), 0);
  }

  /** The earliest deadline of any waiting job. */
  function NextDeadline(w: Waiting): (deadline: Option<nat>)
    ensures deadline.None? <==> w.interactive == [] && w.agents == []
    ensures deadline.Some? ==> forall cls, i :: 0 <= i < |w.Of(cls)| ==> deadline.value <= w.Of(cls)[i].Deadline()
    ensures deadline.Some? ==> exists cls, i :: 0 <= i < |w.Of(cls)| && deadline.value == w.Of(cls)[i].Deadline()
  {
    var left, right := Earliest(w.interactive), Earliest(w.agents);
    assert forall i :: 0 <= i < |w.interactive| ==> w.interactive[i] == w.Of(Interactive)[i];
    assert forall i :: 0 <= i < |w.agents| ==> w.agents[i] == w.Of(Agent)[i];
    if left.None? then right
    else if right.None? || left.value <= right.value then left
    else right
  }

  function Earliest(jobs: seq<Job>): (deadline: Option<nat>)
    ensures deadline.None? <==> jobs == []
    ensures deadline.Some? ==> forall i :: 0 <= i < |jobs| ==> deadline.value <= jobs[i].Deadline()
    ensures deadline.Some? ==> exists i :: 0 <= i < |jobs| && deadline.value == jobs[i].Deadline()
  {
    if jobs == [] then None else
    var rest := Earliest(jobs[1..]);
    if rest.None? || jobs[0].Deadline() <= rest.value then Some(jobs[0].Deadline())
    else
      assert exists i :: 0 <= i < |jobs[1..]| && rest.value == jobs[1..][i].Deadline();
      rest
  }
}
