/**
 The scheduler of the shared turn classifier (schedulers/turn.py), whose worker exists
 only while there is work.

 One step is one critical section. Main results: no wake-up is lost (`RunKeepsValid`:
 a queued job always has a live worker; `WorkNeverWaits`), each session is served in
 submission order (`FirstComeFirstServed`), and while the backlogged sessions stay the same every
 round serves each of them once (`RoundServesEach`).
 */
module TurnScheduling {
  import opened Options
  import opened RoundRobin
  import L = WaitingLine

  /** The worker task: absent or finished, about to look for work, or inside a prediction. */
  datatype Worker = Absent | Looking | Predicting

  datatype SubmitError = SchedulerClosed | SchedulerFull

  datatype Scheduler = Scheduler(
    maxJobs: nat,
    queues: Queues,
    active: Option<Job>,
    last: Option<nat>,
    worker: Worker,
    closed: bool)
  {
    function Accepts(): Outcome<SubmitError> {
      if closed then Raised(SchedulerClosed)
      else if Total(queues) >= maxJobs then Raised(SchedulerFull)
      else Pass
    }

    function Submit(job: Job): Scheduler {
      if Accepts().Raised? then this
      else this.(queues := Push(queues, job), worker := if worker.Absent? then Looking else worker)
    }

    /** The submitter was cancelled: its job leaves the queue if it still waits there. */
    function Abandon(job: Job): Scheduler {
      if job.session !in queues then this
      else this.(queues := Put(queues, job.session, Without(queues[job.session], job.id)))
    }

    function CancelSession(session: nat): Scheduler {
      this.(queues := queues - {session})
    }

    function Close(): Scheduler {
      this.(closed := true, queues := map[])
    }

    /** The worker takes the next job, or ends. */
    function Look(): Scheduler
      requires Filed(queues)
    {
      if queues == map[] then this.(worker := Absent)
      else
        var session := NextSession(queues.Keys, last);
        this.(last := Some(session), active := Some(queues[session][0]),
              queues := Pop(queues, session), worker := Predicting)
    }

    function Finish(): Scheduler {
      this.(active := None, worker := Looking)
    }
  }

  predicate Valid(t: Scheduler) {
    && Filed(t.queues) && Total(t.queues) <= t.maxJobs
    && (t.queues != map[] ==> !t.worker.Absent?)
    && (t.active.Some? <==> t.worker.Predicting?)
    && (t.closed ==> t.queues == map[])
  }

  datatype Step =
    | SubmitJob(job: Job)
    | AbandonJob(job: Job)
    | DropSession(session: nat)
    | CloseAll
    | WorkerLooks
    | WorkerFinishes

  predicate Enabled(t: Scheduler, step: Step) {
    match step
    case WorkerLooks => t.worker.Looking? && Filed(t.queues)
    case WorkerFinishes => t.worker.Predicting?
    case _ => true
  }

  function Apply(t: Scheduler, step: Step): Scheduler
    requires Enabled(t, step)
  {
    match step
    case SubmitJob(job) => t.Submit(job)
    case AbandonJob(job) => t.Abandon(job)
    case DropSession(session) => t.CancelSession(session)
    case CloseAll => t.Close()
    case WorkerLooks => t.Look()
    case WorkerFinishes => t.Finish()
  }

  predicate Possible(t: Scheduler, steps: seq<Step>)
    decreases |steps|
  {
    steps != [] ==> Enabled(t, steps[0]) && Possible(Apply(t, steps[0]), steps[1..])
  }

  function Execute(t: Scheduler, steps: seq<Step>): Scheduler
    requires Possible(t, steps)
    decreases |steps|
  {
    if steps == [] then t else Execute(Apply(t, steps[0]), steps[1..])
  }

  lemma SubmitKeeps(t: Scheduler, job: Job)
    requires Valid(t)
    ensures Valid(t.Submit(job))
  {
    if t.Accepts().Pass? {
      var jobs := Waiting(t.queues, job.session) + [job];
      assert Push(t.queues, job) == Put(t.queues, job.session, jobs);
      TotalPut(t.queues, job.session, jobs);
      FiledPut(t.queues, job.session, jobs);
    }
  }

  lemma AbandonKeeps(t: Scheduler, job: Job)
    requires Valid(t)
    ensures Valid(t.Abandon(job))
  {
    if job.session in t.queues {
      var jobs := t.queues[job.session];
      WithoutShortens(jobs, job.id);
      assert forall i :: 0 <= i < |Without(jobs, job.id)| ==> Without(jobs, job.id)[i] in jobs;
      TotalPut(t.queues, job.session, Without(jobs, job.id));
      FiledPut(t.queues, job.session, Without(jobs, job.id));
    }
  }

  lemma DropKeeps(t: Scheduler, session: nat)
    requires Valid(t)
    ensures Valid(t.CancelSession(session))
  {
    TotalPut(t.queues, session, []);
    FiledPut(t.queues, session, []);
  }

  lemma LookKeeps(t: Scheduler)
    requires Valid(t) && t.worker.Looking?
    ensures Valid(t.Look())
  {
    if t.queues != map[] {
      var session := NextSession(t.queues.Keys, t.last);
      var jobs := t.queues[session];
      TotalPut(t.queues, session, jobs[1..]);
      FiledPut(t.queues, session, jobs[1..]);
    }
  }

  lemma StepKeepsValid(t: Scheduler, step: Step)
    requires Valid(t) && Enabled(t, step)
    ensures Valid(Apply(t, step))
  {
    match step
    case SubmitJob(job) => SubmitKeeps(t, job);
    case AbandonJob(job) => AbandonKeeps(t, job);
    case DropSession(session) => DropKeeps(t, session);
    case WorkerLooks => LookKeeps(t);
    case _ =>
  }

  /** In every run a queued job has a live worker and no queue is empty. */
  lemma {:induction false} RunKeepsValid(t: Scheduler, steps: seq<Step>)
    requires Valid(t) && Possible(t, steps)
    ensures Valid(Execute(t, steps))
    decreases |steps|
  {
    if steps == [] {
    } else {
      StepKeepsValid(t, steps[0]);
      RunKeepsValid(Apply(t, steps[0]), steps[1..]);
    }
  }

  /** With work queued, the worker is predicting, or its next look takes a job. */
  lemma WorkNeverWaits(t: Scheduler)
    requires Valid(t) && t.queues != map[]
    ensures t.active.Some? || (Enabled(t, WorkerLooks) && Apply(t, WorkerLooks).active.Some?)
  {
  }

  /** A look takes the oldest job of the chosen session and nothing else. */
  lemma OldestFirst(t: Scheduler, session: nat)
    requires Valid(t) && t.worker.Looking? && t.queues != map[]
    ensures var t' := t.Look();
            && t'.active.Some? && t'.active.value.session == NextSession(t.queues.Keys, t.last)
            && Waiting(t.queues, session) ==
               (if t'.active.value.session == session then [t'.active.value] else []) + Waiting(t'.queues, session)
  {
    var chosen := NextSession(t.queues.Keys, t.last);
    assert t.queues[chosen] == [t.queues[chosen][0]] + t.queues[chosen][1..];
  }

  // ---- The waiting line of each session ----

  /** What a step means for the jobs of one session that wait. */
  function MoveOf(t: Scheduler, step: Step, session: nat): L.Move
    requires Enabled(t, step)
  {
    match step
    case SubmitJob(job) =>
      if job.session == session && !t.closed && Total(t.queues) < t.maxJobs then L.Joins(job) else L.Stays
    case AbandonJob(job) => if job.session == session then L.Quits(job.id) else L.Stays
    case DropSession(dropped) => if dropped == session then L.Cleared else L.Stays
    case CloseAll => L.Cleared
    case WorkerLooks => if Dispatched(t, step, session) != [] then L.Served else L.Stays
    case WorkerFinishes => L.Stays
  }

  /** The job that the classifier gets in this step, if it is one of the session. */
  function Dispatched(t: Scheduler, step: Step, session: nat): seq<Job>
    requires Enabled(t, step)
  {
    var active := Apply(t, step).active;
    if step.WorkerLooks? && active.Some? && active.value.session == session then [active.value] else []
  }

  lemma StepMoves(t: Scheduler, step: Step, session: nat)
    requires Valid(t) && Enabled(t, step) && L.Distinct(Waiting(t.queues, session))
    ensures var line, m := Waiting(t.queues, session), MoveOf(t, step, session);
            && Waiting(Apply(t, step).queues, session) == L.After(line, m)
            && Dispatched(t, step, session) == L.Head(line, m)
  {
    var line := Waiting(t.queues, session);
    match step
    case AbandonJob(job) =>
      if job.session == session {
        L.WithoutQuits(line, job.id);
      }
    case _ =>
  }

  function MovesOf(t: Scheduler, steps: seq<Step>, session: nat): seq<L.Move>
    requires Possible(t, steps)
    decreases |steps|
  {
    if steps == [] then []
    else [MoveOf(t, steps[0], session)] + MovesOf(Apply(t, steps[0]), steps[1..], session)
  }

  function AllDispatched(t: Scheduler, steps: seq<Step>, session: nat): seq<Job>
    requires Possible(t, steps)
    decreases |steps|
  {
    if steps == [] then []
    else Dispatched(t, steps[0], session) + AllDispatched(Apply(t, steps[0]), steps[1..], session)
  }

  lemma {:induction false} RunMoves(t: Scheduler, steps: seq<Step>, session: nat)
    requires Valid(t) && Possible(t, steps)
    requires L.Distinct(Waiting(t.queues, session) + L.Joined(MovesOf(t, steps, session)))
    ensures var line, moves := Waiting(t.queues, session), MovesOf(t, steps, session);
            && Waiting(Execute(t, steps).queues, session) == L.AfterAll(line, moves)
            && AllDispatched(t, steps, session) == L.Taken(line, moves)
    decreases |steps|
  {
    if steps == [] {
    } else {
      var line, m := Waiting(t.queues, session), MoveOf(t, steps[0], session);
      var t' := Apply(t, steps[0]);
      var rest := MovesOf(t', steps[1..], session);
      assert ([m] + rest)[1..] == rest;
      L.DistinctFront(line, L.Joined([m] + rest));
      StepKeepsValid(t, steps[0]);
      StepMoves(t, steps[0], session);
      L.DistinctAfter(line, m, rest);
      RunMoves(t', steps[1..], session);
    }
  }

  /**
   In every run, the accepted jobs of a session without those withdrawn while they waited
   are the ones the classifier got followed by the ones that wait, in the order of submission.
   */
  lemma FirstComeFirstServed(t: Scheduler, steps: seq<Step>, session: nat)
    requires Valid(t) && Possible(t, steps) && t.queues == map[]
    requires L.Distinct(L.Joined(MovesOf(t, steps, session)))
    ensures var moves := MovesOf(t, steps, session);
            L.Keep(L.Joined(moves), L.Lost([], moves))
            == AllDispatched(t, steps, session) + Waiting(Execute(t, steps).queues, session)
  {
    var moves := MovesOf(t, steps, session);
    assert [] + L.Joined(moves) == L.Joined(moves);
    RunMoves(t, steps, session);
    L.FirstComeFirstServed([], moves);
  }

  // ---- Fairness ----

  /** The sessions that a run serves, in order. */
  function Served(t: Scheduler, steps: seq<Step>): seq<nat>
    requires Possible(t, steps)
    decreases |steps|
  {
    if steps == [] then []
    else
      var later := Served(Apply(t, steps[0]), steps[1..]);
      var active := Apply(t, steps[0]).active;
      if steps[0].WorkerLooks? && active.Some? then [active.value.session] + later else later
  }

  /** Whenever a job is taken, the same sessions have queued jobs. */
  predicate Steady(t: Scheduler, steps: seq<Step>, backlog: set<nat>)
    requires Possible(t, steps)
    decreases |steps|
  {
    steps != [] ==>
      && (steps[0].WorkerLooks? && t.queues != map[] ==> t.queues.Keys == backlog)
      && Steady(Apply(t, steps[0]), steps[1..], backlog)
  }

  lemma {:induction false} ServedAreTheChoices(t: Scheduler, steps: seq<Step>, backlog: set<nat>)
    requires Valid(t) && Possible(t, steps) && Steady(t, steps, backlog) && backlog != {} && Sorted(backlog) != []
    ensures Served(t, steps) == Picks(Sorted(backlog), t.last, |Served(t, steps)|)
    decreases |steps|
  {
    if steps == [] {
    } else {
      var t' := Apply(t, steps[0]);
      StepKeepsValid(t, steps[0]);
      ServedAreTheChoices(t', steps[1..], backlog);
      if steps[0].WorkerLooks? && t.queues != map[] {
        PicksFirst(Sorted(backlog), t.last, |Served(t', steps[1..])|);
      } else {
        assert t'.last == t.last;
      }
    }
  }

  /** As many dispatches in a row as there are backlogged sessions serve each of them exactly once. */
  lemma RoundServesEach(t: Scheduler, steps: seq<Step>, backlog: set<nat>)
    requires Valid(t) && Possible(t, steps) && Steady(t, steps, backlog) && |Served(t, steps)| == |backlog| > 0
    ensures forall x :: x in backlog ==> x in Served(t, steps)
    ensures forall i, j :: 0 <= i < j < |backlog| ==> Served(t, steps)[i] != Served(t, steps)[j]
  {
    SortedIsSorted(backlog);
    ServedAreTheChoices(t, steps, backlog);
    EachOnce(Sorted(backlog), t.last);
    forall x | x in backlog
      ensures x in Served(t, steps)
    {
      var j := IndexOf(Sorted(backlog), x);
      assert Sorted(backlog)[j] == x;
    }
  }

  /** A closed scheduler stays closed and takes no job, in every continuation. */
  lemma ClosedForGood(t: Scheduler, steps: seq<Step>)
    requires Possible(Apply(t, CloseAll), steps)
    ensures Execute(Apply(t, CloseAll), steps).closed && Execute(Apply(t, CloseAll), steps).queues == map[]
  {
    StaysClosed(Apply(t, CloseAll), steps);
  }

  lemma {:induction false} StaysClosed(t: Scheduler, steps: seq<Step>)
    requires t.closed && t.queues == map[] && Possible(t, steps)
    ensures Execute(t, steps).closed && Execute(t, steps).queues == map[]
    decreases |steps|
  {
    if steps == [] {
    } else {
      StaysClosed(Apply(t, steps[0]), steps[1..]);
    }
  }

  class TurnScheduler {
    const maxJobs: nat
    var queues: Queues
    var active: Option<Job>
    var lastSession: Option<nat>
    var worker: Worker
    var closed: bool

    ghost function View(): Scheduler
      reads this
    {
      Scheduler(maxJobs, queues, active, lastSession, worker, closed)
    }

    constructor (maxJobs: nat)
      requires maxJobs >= 1
      ensures View() == Scheduler(maxJobs, map[], None, None, Absent, false) && Valid(View())
    {
      this.maxJobs := maxJobs;
      queues, active, lastSession, worker, closed := map[], None, None, Absent, false;
    }

    static method Create(maxJobs: int) returns (r: Option<TurnScheduler>)
      ensures r.Some? <==> maxJobs >= 1
      ensures r.Some? ==> fresh(r.value) && Valid(r.value.View())
                          && r.value.View() == Scheduler(maxJobs, map[], None, None, Absent, false)
    {
      if maxJobs < 1 {
        return None;
      }
      var scheduler := new TurnScheduler(maxJobs);
      r := Some(scheduler);
    }

    method Submit(job: Job) returns (r: Outcome<SubmitError>)
      requires Valid(View())
      modifies this
      ensures Valid(View()) && View() == old(View()).Submit(job)
      ensures r == if old(closed) then Raised(SchedulerClosed)
                   else if old(Total(queues)) >= maxJobs then Raised(SchedulerFull)
                   else Pass
    {
      SubmitKeeps(View(), job);
      if closed {
        return Raised(SchedulerClosed);
      }
      if Total(queues) >= maxJobs {
        return Raised(SchedulerFull);
      }
      queues := Push(queues, job);
      if worker == Absent {
        worker := Looking;
      }
      r := Pass;
    }

    method Abandon(job: Job)
      requires Valid(View())
      modifies this
      ensures Valid(View()) && View() == old(View()).Abandon(job)
    {
      AbandonKeeps(View(), job);
      if job.session in queues {
        var kept := Remove(queues[job.session], job.id);
        queues := Put(queues, job.session, kept);
      }
    }

    static method Remove(jobs: seq<Job>, id: nat) returns (kept: seq<Job>)
      ensures kept == Without(jobs, id)
    {
      var i := 0;
      while i < |jobs| && jobs[i].id != id
        invariant i <= |jobs|
        invariant Without(jobs, id) == jobs[..i] + Without(jobs[i..], id)
      {
        assert jobs[i..][1..] == jobs[i + 1..] && jobs[..i] + [jobs[i]] == jobs[..i + 1];
        i := i + 1;
      }
      kept := if i < |jobs| then jobs[..i] + jobs[i + 1..] else jobs;
    }

    method CancelSession(session: nat)
      requires Valid(View())
      modifies this
      ensures Valid(View()) && View() == old(View()).CancelSession(session)
    {
      DropKeeps(View(), session);
      queues := queues - {session};
    }

    method Close()
      requires Valid(View())
      modifies this
      ensures Valid(View()) && View() == old(View()).Close()
    {
      closed := true;
      queues := map[];
    }

    /** The worker's critical section; without a job its task ends. */
    method Look() returns (job: Option<Job>)
      requires Valid(View()) && worker == Looking
      modifies this
      ensures Valid(View()) && View() == old(View()).Look()
      ensures job == if old(queues) == map[] then None else active
    {
      LookKeeps(View());
      if queues == map[] {
        worker := Absent;
        return None;
      }
      var next := NextJob();
      active := Some(next);
      worker := Predicting;
      job := active;
    }

    method NextJob() returns (job: Job)
      requires Filed(queues) && queues != map[]
      modifies this`lastSession, this`queues
      ensures var session := NextSession(old(queues.Keys), old(lastSession));
              && lastSession == Some(session) && job == old(queues)[session][0]
              && queues == Pop(old(queues), session)
    {
      var session := NextSession(queues.Keys, lastSession);
      lastSession := Some(session);
      job := queues[session][0];
      queues := Pop(queues, session);
    }

    method Finish()
      requires Valid(View()) && worker == Predicting
      modifies this
      ensures Valid(View()) && View() == old(View()).Finish()
    {
      active := None;
      worker := Looking;
    }
  }
}
