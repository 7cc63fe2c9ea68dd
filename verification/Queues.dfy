/** The two class queues, changed in place under the queue lock (src/queue.rs). */
module QueueClass {
  import opened Wrappers
  import opened Budgets
  import opened Responses
  import opened Queueing

  /** What the queue code shares with the rest of the gateway: the monotonic clock, which callers have dropped
      their receivers, the budget objects behind the permits, and the answers sent. The clock only moves
      forward and departures are final. */
  class World {
    var now: nat
    var departed: set<nat>
    var answers: seq<Answer>
    /** The states of the budgets behind the permits. */
    var ledger: Ledger

    constructor (ledger: Ledger)
      ensures this.ledger == ledger && answers == [] && departed == {} && now == 0
    {
      now, departed, answers, this.ledger := 0, {}, [], ledger;
    }

    method Now() returns (reading: nat)
      modifies this`now
      ensures old(now) <= now == reading
    {
      reading :| now <= reading;
      now := reading;
    }

    method IsClosed(reply: nat) returns (closed: bool)
      modifies this`departed
      ensures old(departed) <= departed
      ensures closed == (reply in departed)
    {
      var more: set<nat> :| departed <= more;
      departed := more;
      closed := reply in departed;
    }

    method Send(reply: nat, response: Response)
      modifies this`answers
      ensures answers == old(answers) + [Answer(reply, response)]
    {
      answers := answers + [Answer(reply, response)];
    }

    method TryAcquire(key: Key) returns (admitted: Option<Snapshot>)
      requires key in ledger
      modifies this`ledger
      ensures admitted.Some? <==> Admits(old(ledger)[key])
      ensures admitted.Some? ==> ledger == Acquire1(old(ledger), key) && admitted.value == ledger[key]
      ensures admitted.None? ==> ledger == old(ledger)
    {
      if !Admits(ledger[key]) {
        return None;
      }
      ledger := Acquire1(ledger, key);
      admitted := Some(ledger[key]);
    }

    method Release(key: Key)
      requires key in ledger && ledger[key].outstanding > 0
      modifies this`ledger
      ensures ledger == Release1(old(ledger), key)
    {
      ledger := Release1(ledger, key);
    }
  }

  /** A removal is warranted between two observations: a silent discard by a departure seen by the later
      one, an expiry by its clock and a caller that had not departed at the earlier one. */
  predicate Warranted(r: Removal, early: set<nat>, late: set<nat>, now: nat) {
    match r.reason
    case Gone => r.job.reply in late
    case Expired => r.job.Deadline() <= now && r.job.reply !in early
    case Refused => false
  }

  /** The progress of a scan over one queue: `kept` was looked at and stays, `rest` is still to come. */
  datatype Scan = Scan(books: Books, rs: seq<Removal>, kept: seq<Job>, rest: seq<Job>)

  ghost predicate Scanned(start: Books, scan: Scan, cls: Class, early: set<nat>, late: set<nat>, now: nat) {
    && early <= late
    && AllRemovable(start, scan.rs) && scan.books == RemoveAll(start, scan.rs) && Covered(scan.books)
    && scan.books.waiting == start.waiting.With(cls, scan.kept + scan.rest)
    && (forall r | r in scan.rs :: r.cls == cls && Warranted(r, early, late, now))
    && AllStay(scan.kept, early, now)
  }

  lemma RotationStep(rest: seq<Job>, kept: seq<Job>)
    requires rest != []
    ensures (rest + kept)[0] == rest[0] && (rest + kept)[1..] == rest[1..] + kept
    ensures (rest + kept)[1..] + [rest[0]] == rest[1..] + (kept + [rest[0]])
  {
  }

  lemma FrontHeld(start: Books, scan: Scan, cls: Class, early: set<nat>, late: set<nat>, now: nat)
    requires Scanned(start, scan, cls, early, late, now) && scan.rest != []
    ensures var key := scan.rest[0].permit; key in scan.books.ledger && scan.books.ledger[key].outstanding > 0
  {
    RemoveCovered(scan.books, Removal(cls, |scan.kept|, scan.rest[0], Gone));
  }

  lemma ScanRemoves(start: Books, scan: Scan, cls: Class, early: set<nat>, late: set<nat>, later: set<nat>,
                    now: nat, r: Removal)
    returns (next: Scan)
    requires Scanned(start, scan, cls, early, late, now) && scan.rest != [] && late <= later
    requires r == Removal(cls, |scan.kept|, scan.rest[0], r.reason) && Warranted(r, late, later, now)
    ensures Removable(scan.books, r)
    ensures next == Scan(Remove(scan.books, r), scan.rs + [r], scan.kept, scan.rest[1..])
    ensures Scanned(start, next, cls, early, later, now)
  {
    next := Scan(Remove(scan.books, r), scan.rs + [r], scan.kept, scan.rest[1..]);
    assert RemoveAt(scan.kept + scan.rest, |scan.kept|) == next.kept + next.rest;
    RemoveCovered(scan.books, r);
    RemoveAllSnoc(start, scan.rs, r);
  }

  lemma ScanKeeps(start: Books, scan: Scan, cls: Class, early: set<nat>, late: set<nat>, later: set<nat>, now: nat)
    returns (next: Scan)
    requires Scanned(start, scan, cls, early, late, now) && scan.rest != [] && late <= later
    requires Stays(scan.rest[0], late, now)
    ensures next == scan.(kept := scan.kept + [scan.rest[0]], rest := scan.rest[1..])
    ensures Scanned(start, next, cls, early, later, now)
  {
    hide AllRemovable, RemoveAll, Covered;
    next := scan.(kept := scan.kept + [scan.rest[0]], rest := scan.rest[1..]);
    assert scan.kept + scan.rest == next.kept + next.rest;
  }

  /** The two scans in a row. */
  lemma ScansCompose(start: Books, l: Scan, a: Scan, early: set<nat>, middle: set<nat>, late: set<nat>, now: nat)
    returns (rs: seq<Removal>)
    requires Scanned(start, l, Interactive, early, middle, now) && l.rest == []
    requires Scanned(l.books, a, Agent, middle, late, now) && a.rest == []
    ensures AllRemovable(start, rs) && RemoveAll(start, rs) == a.books && Covered(a.books)
    ensures a.books.waiting == Waiting(l.kept, a.kept)
    ensures forall r | r in rs :: Warranted(r, early, late, now)
    ensures early <= late && AllStay(l.kept, early, now) && AllStay(a.kept, early, now)
  {
    RemoveAllConcat(start, l.rs, a.rs);
    rs := l.rs + a.rs;
    assert l.kept + [] == l.kept && a.kept + [] == a.kept;
  }

  /** The rotating scan is the stable filter by open and unexpired. The callers counted as gone are those seen
      to have left: all that had before the scan, and no one who has not by its end. */
  lemma MaintenanceFilters(start: Books, rs: seq<Removal>, early: set<nat>, late: set<nat>, now: nat)
    returns (gone: set<nat>)
    requires AllRemovable(start, rs) && Distinct(start.waiting) && early <= late
    requires forall r | r in rs :: Warranted(r, early, late, now)
    requires AllStay(RemoveAll(start, rs).waiting.interactive, early, now)
    requires AllStay(RemoveAll(start, rs).waiting.agents, early, now)
    ensures early <= gone <= late
    ensures RemoveAll(start, rs).waiting ==
            Waiting(Survivors(start.waiting.interactive, gone, now), Survivors(start.waiting.agents, gone, now))
  {
    gone := early + set r | r in rs && r.reason.Gone? :: r.job.reply;
    RemovedAreGone(start, rs);
    var left := RemoveAll(start, rs).waiting;
    forall cls: Class ensures AllStay(left.Of(cls), gone, now) {
      forall i | 0 <= i < |left.Of(cls)| ensures Stays(left.Of(cls)[i], gone, now) {
        var c := left.Of(cls)[i].reply;
        CountPositive(left.Of(cls), c);
        assert Everywhere(left, c) > 0;
      }
    }
    RemovingIsFiltering(start, rs, Interactive, gone, now);
    RemovingIsFiltering(start, rs, Agent, gone, now);
  }

  /** What a selection does once only jobs `left` that stay are queued: it takes the front of the class chosen, and the
      streak grows exactly for an interactive job taken in weighted mode while an agent job waits. */
  predicate Selects(mode: Mode, before: nat, left: Books, job: Option<Job>, after: Books, streak: nat) {
    match Chosen(mode, before, left.waiting)
    case None => job == None && after == left && streak == 0
    case Some(cls) =>
      && job == Some(left.waiting.Of(cls)[0]) && after == Popped(left, cls)
      && streak == NextStreak(mode, before, left.waiting, cls)
      && (streak > 0 <==>
          mode == Weighted && cls == Interactive && left.waiting.interactive != [] && left.waiting.agents != [])
      && (streak > 0 ==> streak == before + 1)
  }

  class Queues {
    var interactive: seq<Job>
    var agents: seq<Job>
    var streak: nat
    var mode: Mode
    var nextOrder: nat

    constructor (mode: Mode)
      ensures interactive == agents == [] && streak == nextOrder == 0 && this.mode == mode
    {
      interactive, agents, streak, this.mode, nextOrder := [], [], 0, mode, 0;
    }

    function Queued(): Waiting
      reads this
    {
      Waiting(interactive, agents)
    }

    function Contents(world: World): Books
      reads this, world
    {
      Books(Queued(), world.ledger, world.answers)
    }

    ghost predicate Valid(world: World)
      reads this, world
    {
      streak <= 3 && Covered(Contents(world))
    }

    method TakeOrder() returns (order: nat)
      modifies this`nextOrder
      ensures order == old(nextOrder) && nextOrder == old(nextOrder) + 1
    {
      order := nextOrder;
      nextOrder := order + 1;
    }

    method PushBack(cls: Class, job: Job)
      modifies this`interactive, this`agents
      ensures Queued() == old(Queued()).With(cls, old(Queued().Of(cls)) + [job])
    {
      if cls.Interactive? {
        interactive := interactive + [job];
      } else {
        agents := agents + [job];
      }
    }

    /** Look at one job of the scan. It stays, or its permit is dropped and then its caller is told, unless
        it has left. */
    static method Visit(cls: Class, ghost at: nat, job: Job, now: nat, world: World)
      returns (stays: bool, ghost r: Removal)
      requires job.permit in world.ledger && world.ledger[job.permit].outstanding > 0
      modifies world`departed, world`answers, world`ledger
      ensures old(world.departed) <= world.departed
      ensures stays ==> Stays(job, old(world.departed), now)
      ensures stays ==> world.ledger == old(world.ledger) && world.answers == old(world.answers)
      ensures !stays ==> r == Removal(cls, at, job, r.reason)
                         && Warranted(r, old(world.departed), world.departed, now)
      ensures !stays ==> world.ledger == Release1(old(world.ledger), job.permit)
                         && world.answers == old(world.answers) + Notice(r)
    {
      var closed := world.IsClosed(job.reply);
      stays := !closed && now < job.Deadline();
      r := Removal(cls, at, job, if closed then Gone else Expired);
      if !stays {
        world.Release(job.permit);
        if !closed {
          world.Send(job.reply, QueueTimeout());
        }
      }
    }

    /** One turn of the scan, seen from its books. */
    static method Turn(cls: Class, job: Job, now: nat, world: World,
                       ghost start: Books, ghost scan: Scan, ghost early: set<nat>)
      returns (stays: bool, ghost next: Scan)
      requires Scanned(start, scan, cls, early, world.departed, now)
      requires scan.rest != [] && scan.rest[0] == job
      requires scan.books.ledger == world.ledger && scan.books.answers == world.answers
      modifies world`departed, world`answers, world`ledger
      ensures Scanned(start, next, cls, early, world.departed, now)
      ensures next.books.ledger == world.ledger && next.books.answers == world.answers
      ensures next.rest == scan.rest[1..] && next.kept == if stays then scan.kept + [job] else scan.kept
    {
      hide Covered;
      FrontHeld(start, scan, cls, early, world.departed, now);
      ghost var late, r: Removal := world.departed, *;
      stays, r := Visit(cls, |scan.kept|, job, now, world);
      if stays {
        next := ScanKeeps(start, scan, cls, early, late, world.departed, now);
      } else {
        next := ScanRemoves(start, scan, cls, early, late, world.departed, now, r);
      }
    }

    /** The rotating scan of one queue: pop the front, drop it or push it back, once for each job. */
    static method Rotate(cls: Class, jobs: seq<Job>, now: nat, world: World,
                         ghost start: Books)
      returns (queue: seq<Job>, ghost scan: Scan)
      requires Covered(start) && start.waiting.Of(cls) == jobs
      requires start.ledger == world.ledger && start.answers == world.answers
      modifies world`departed, world`answers, world`ledger
      ensures Scanned(start, scan, cls, old(world.departed), world.departed, now)
      ensures scan.rest == [] && scan.kept == queue
      ensures scan.books.ledger == world.ledger && scan.books.answers == world.answers
    {
      hide Covered;
      queue, scan := jobs, Scan(start, [], [], jobs);
      for i := 0 to |jobs|
        invariant |scan.rest| == |jobs| - i && queue == scan.rest + scan.kept
        invariant scan.books.ledger == world.ledger && scan.books.answers == world.answers
        invariant Scanned(start, scan, cls, old(world.departed), world.departed, now)
      {
        var job := queue[0];
        RotationStep(scan.rest, scan.kept);
        queue := queue[1..];
        var stays, next := Turn(cls, job, now, world, start, scan, old(world.departed));
        if stays {
          queue := queue + [job];
        }
        scan := next;
      }
    }

    /** Both queues lose their departed and expired jobs in place; survivors keep their order. */
    method Maintain(now: nat, world: World) returns (ghost rs: seq<Removal>, ghost gone: set<nat>)
      requires Valid(world)
      modifies this`interactive, this`agents, world`departed, world`answers, world`ledger
      ensures Valid(world) && old(world.departed) <= world.departed
      ensures AllRemovable(old(Contents(world)), rs)
      ensures Contents(world) == RemoveAll(old(Contents(world)), rs)
      ensures forall r | r in rs :: Warranted(r, old(world.departed), world.departed, now)
      ensures AllStay(interactive, old(world.departed), now) && AllStay(agents, old(world.departed), now)
      ensures Distinct(old(Queued())) ==>
                && old(world.departed) <= gone <= world.departed
                && interactive == Survivors(old(interactive), gone, now)
                && agents == Survivors(old(agents), gone, now)
    {
      hide Covered;
      ghost var start := Contents(world);
      var left, l := Rotate(Interactive, interactive, now, world, start);
      interactive := left;
      ghost var middle := world.departed;
      var right, a := Rotate(Agent, agents, now, world, l.books);
      agents := right;
      rs := ScansCompose(start, l, a, old(world.departed), middle, world.departed, now);
      gone := {};
      if Distinct(start.waiting) {
        gone := MaintenanceFilters(start, rs, old(world.departed), world.departed, now);
      }
    }

    /** The recheck at hand-off, with a fresh reading of the clock. A job that is no longer fit is dropped. */
    static method Recheck(cls: Class, job: Job, world: World)
      returns (fit: bool, ghost r: Removal)
      requires job.permit in world.ledger && world.ledger[job.permit].outstanding > 0
      modifies world`now, world`departed, world`answers, world`ledger
      ensures old(world.now) <= world.now && old(world.departed) <= world.departed
      ensures fit ==> Stays(job, world.departed, world.now)
      ensures fit ==> world.ledger == old(world.ledger) && world.answers == old(world.answers)
      ensures !fit ==> r == Removal(cls, 0, job, r.reason)
                       && Warranted(r, old(world.departed), world.departed, world.now)
      ensures !fit ==> world.ledger == Release1(old(world.ledger), job.permit)
                       && world.answers == old(world.answers) + Notice(r)
    {
      r := Removal(cls, 0, job, Gone);
      var closed := world.IsClosed(job.reply);
      if closed {
        world.Release(job.permit);
        return false, r;
      }
      var reading := world.Now();
      fit := job.Deadline() > reading;
      if !fit {
        r := Removal(cls, 0, job, Expired);
        world.Release(job.permit);
        world.Send(job.reply, QueueTimeout());
      }
    }

    /** The class the next hand-off is taken from, or none when both queues are empty. */
    method Select() returns (cls: Option<Class>)
      ensures cls == Chosen(mode, streak, Queued())
    {
      var left: bool;
      if mode == Fifo {
        left := interactive != [] && (agents == [] || interactive[0].order < agents[0].order);
      } else {
        left := interactive != [] && (agents == [] || streak < 3);
      }
      cls := if left then Some(Interactive) else if agents != [] then Some(Agent) else None;
    }

    method PopFront(cls: Class) returns (job: Job)
      requires Queued().Of(cls) != []
      modifies this`interactive, this`agents
      ensures job == old(Queued().Of(cls))[0]
      ensures Queued() == old(Queued()).With(cls, old(Queued().Of(cls))[1..])
    {
      if cls.Interactive? {
        job, interactive := interactive[0], interactive[1..];
      } else {
        job, agents := agents[0], agents[1..];
      }
    }

    /** One round of selection: maintain, choose, pop and recheck. A class without a job means that the
        popped job was dropped. */
    method Round(world: World)
      returns (cls: Option<Class>, job: Option<Job>, competing: bool, ghost rs: seq<Removal>)
      requires Valid(world)
      modifies this`interactive, this`agents, world`now, world`departed, world`answers, world`ledger
      ensures Valid(world) && old(world.departed) <= world.departed && old(world.now) <= world.now
      ensures AllRemovable(old(Contents(world)), rs)
      ensures forall r | r in rs :: Warranted(r, old(world.departed), world.departed, world.now)
      ensures var left := RemoveAll(old(Contents(world)), rs);
              if job.None? then
                && Contents(world) == left
                && (if cls.None? then Chosen(mode, streak, left.waiting) == None
                    else left.waiting.Size() < old(Queued().Size()))
              else
                && cls.Some? && cls == Chosen(mode, streak, left.waiting)
                && competing == (left.waiting.interactive != [] && left.waiting.agents != [])
                && job.value == left.waiting.Of(cls.value)[0] && Contents(world) == Popped(left, cls.value)
                && Stays(job.value, world.departed, world.now)
    {
      hide Covered, AllRemovable, RemoveAll, AllStay, Survivors, Distinct, Release1, Stays, Notice, QueueTimeout;
      var reading := world.Now();
      ghost var gone: set<nat>;
      rs, gone := Maintain(reading, world);
      ghost var start, left := old(Contents(world)), Contents(world);
      RemovalShrinks(start, rs);
      competing := interactive != [] && agents != [];
      job := None;
      cls := Select();
      if cls == None {
        return;
      }
      PoppedCovered(left, cls.value);
      var front := PopFront(cls.value);
      var fit, r := Recheck(cls.value, front, world);
      if fit {
        job := Some(front);
      } else {
        RemoveCovered(left, r);
        RemoveAllSnoc(start, rs, r);
        rs := rs + [r];
        RemovalShrinks(start, rs);
      }
    }

    /** One turn of selection: a job is taken or none is found, or else the queues have shrunk. */
    method Attempt(world: World) returns (done: bool, job: Option<Job>, ghost rs: seq<Removal>)
      requires Valid(world)
      modifies this`interactive, this`agents, this`streak
      modifies world`now, world`departed, world`answers, world`ledger
      ensures Valid(world) && old(world.departed) <= world.departed && old(world.now) <= world.now
      ensures AllRemovable(old(Contents(world)), rs)
      ensures forall r | r in rs :: Warranted(r, old(world.departed), world.departed, world.now)
      ensures done ==>
                Selects(mode, old(streak), RemoveAll(old(Contents(world)), rs), job, Contents(world), streak)
                && (job.Some? ==> Stays(job.value, world.departed, world.now))
      ensures !done ==>
                && Contents(world) == RemoveAll(old(Contents(world)), rs) && streak == old(streak)
                && Queued().Size() < old(Queued().Size())
    {
      hide Covered, AllRemovable, RemoveAll, Warranted, Stays, NextStreak;
      var cls, candidate, competing;
      cls, candidate, competing, rs := Round(world);
      if cls == None {
        streak := 0;
        return true, None, rs;
      }
      if candidate.Some? {
        StreakRule(mode, streak, RemoveAll(old(Contents(world)), rs).waiting, cls.value);
        streak := if mode == Weighted && competing && cls.value.Interactive? then streak + 1 else 0;
        return true, candidate, rs;
      }
      done, job := false, None;
    }

    /** The next job to hand off. Whatever else leaves the queues on the way was closed or expired at some
        reading during the call; the job returned is open and strictly before its deadline at the last
        reading, and the streak changes only on a hand-off or when nothing is left. */
    method PopNext(world: World) returns (job: Option<Job>, ghost rs: seq<Removal>)
      requires Valid(world)
      modifies this`interactive, this`agents, this`streak
      modifies world`now, world`departed, world`answers, world`ledger
      ensures Valid(world) && old(world.departed) <= world.departed && old(world.now) <= world.now
      ensures AllRemovable(old(Contents(world)), rs)
      ensures forall r | r in rs :: Warranted(r, old(world.departed), world.departed, world.now)
      ensures Selects(mode, old(streak), RemoveAll(old(Contents(world)), rs), job, Contents(world), streak)
      ensures job.Some? ==> Stays(job.value, world.departed, world.now)
    {
      hide Covered;
      ghost var start := Contents(world);
      rs := [];
      assert AllRemovable(start, rs) && RemoveAll(start, rs) == start;
      hide AllRemovable, RemoveAll, Warranted, Stays, Selects;
      while true
        invariant Valid(world) && streak == old(streak)
        invariant old(world.departed) <= world.departed && old(world.now) <= world.now
        invariant AllRemovable(start, rs) && RemoveAll(start, rs) == Contents(world)
        invariant forall r | r in rs :: Warranted(r, old(world.departed), world.departed, world.now)
        decreases Queued().Size()
      {
        ghost var more;
        var done;
        done, job, more := Attempt(world);
        RemoveAllConcat(start, rs, more);
        rs := rs + more;
        if done {
          return;
        }
      }
    }

    /** Closing for good: every waiting job is drained, its permit dropped and its caller told. */
    method RejectPending(world: World) returns (ghost rs: seq<Removal>)
      requires Valid(world)
      modifies this`interactive, this`agents, world`answers, world`ledger
      ensures Valid(world) && interactive == agents == []
      ensures AllRemovable(old(Contents(world)), rs)
      ensures Contents(world) == RemoveAll(old(Contents(world)), rs)
      ensures forall r | r in rs :: r.reason == Refused && r.index == 0
      ensures |rs| == old(Queued().Size())
    {
      hide Covered;
      ghost var start := Contents(world);
      rs := [];
      while interactive != [] || agents != []
        invariant Valid(world)
        invariant AllRemovable(start, rs) && RemoveAll(start, rs) == Contents(world)
        invariant forall r | r in rs :: r.reason == Refused && r.index == 0
        invariant |rs| + Queued().Size() == start.waiting.Size()
        decreases Queued().Size()
      {
        var cls := if interactive != [] then Interactive else Agent;
        ghost var left := Contents(world);
        PoppedCovered(left, cls);
        var job := PopFront(cls);
        world.Release(job.permit);
        world.Send(job.reply, GatewayClosed());
        ghost var r := Removal(cls, 0, job, Refused);
        RemoveCovered(left, r);
        RemoveAllSnoc(start, rs, r);
        rs := rs + [r];
        assert world.ledger == Remove(left, r).ledger;
      }
    }
  }
}
