/**
 The transcription scheduler (schedulers/stt.py): final jobs before partial ones, round
 robin within each kind.

 One step is one critical section. Main results: a partial job never starts while a final
 one is queued (`FinalsFirst`), at most one partial job waits per session
 (`RunKeepsValid`), each session is served in submission order
 (`FirstComeFirstServed`), and while the sessions with queued jobs of one kind stay the
 same every round of them serves each session once (`RoundServesEach`).
 */
module SttScheduling {
  import opened Options
  import opened RoundRobin
  import L = WaitingLine

  datatype SubmitError = SchedulerClosed | SchedulerFull

  datatype Running = Running(job: Job, final: bool)

  datatype Scheduler = Scheduler(
    maxJobs: nat,
    finals: Queues,
    partials: Queues,
    active: Option<Running>,
    lastFinal: Option<nat>,
    lastPartial: Option<nat>,
    closed: bool)
  {
    function Queued(): nat {
      Total(finals) + Total(partials)
    }

    function AcceptsFinal(): Outcome<SubmitError> {
      if closed then Raised(SchedulerClosed)
      else if Queued() >= maxJobs then Raised(SchedulerFull)
      else Pass
    }

    function SubmitFinal(job: Job): Scheduler {
      if AcceptsFinal().Raised? then this else this.(finals := Push(finals, job))
    }

    /** A partial job is turned away unless the scheduler is idle for its session. */
    predicate AcceptsPartial(job: Job) {
      && !closed && active.None? && Queued() < maxJobs
      && (forall k :: k in finals ==> finals[k] == [])
      && Waiting(partials, job.session) == []
    }

    function SubmitPartial(job: Job): Scheduler {
      if AcceptsPartial(job) then this.(partials := Push(partials, job)) else this
    }

    function CancelSession(session: nat): Scheduler {
      this.(finals := finals - {session}, partials := partials - {session})
    }

    function Close(): Scheduler {
      this.(closed := true, finals := map[], partials := map[])
    }

    function Dispatch(): Scheduler
      requires Filed(finals) && Filed(partials) && (finals != map[] || partials != map[])
    {
      if finals != map[] then
        var session := NextSession(finals.Keys, lastFinal);
        this.(lastFinal := Some(session), active := Some(Running(finals[session][0], true)),
              finals := Pop(finals, session))
      else
        var session := NextSession(partials.Keys, lastPartial);
        this.(lastPartial := Some(session), active := Some(Running(partials[session][0], false)),
              partials := Pop(partials, session))
    }

    function Finish(): Scheduler {
      this.(active := None)
    }
  }

  predicate Valid(t: Scheduler) {
    && Filed(t.finals) && Filed(t.partials) && t.Queued() <= t.maxJobs
    && (forall k :: k in t.partials ==> |t.partials[k]| == 1)
    && (t.closed ==> t.finals == map[] && t.partials == map[])
  }

  datatype Step =
    | Final(job: Job)
    | Partial(job: Job)
    | DropSession(session: nat)
    | CloseAll
    | WorkerTakes
    | WorkerFinishes

  predicate Enabled(t: Scheduler, step: Step) {
    match step
    case WorkerTakes =>
      && !t.closed && t.active.None? && Filed(t.finals) && Filed(t.partials)
      && (t.finals != map[] || t.partials != map[])
    case WorkerFinishes => t.active.Some?
    case _ => true
  }

  function Apply(t: Scheduler, step: Step): Scheduler
    requires Enabled(t, step)
  {
    match step
    case Final(job) => t.SubmitFinal(job)
    case Partial(job) => t.SubmitPartial(job)
    case DropSession(session) => t.CancelSession(session)
    case CloseAll => t.Close()
    case WorkerTakes => t.Dispatch()
    case WorkerFinishes => t.Finish()
  }

  predicate Possible(t: Scheduler, steps: seq<Step>)
    decreases |steps|
  {
    steps != [] ==> Enabled(t, steps[0]) && Possible(Apply(t, steps[0]), steps[1..])
  }

  function Execute(t: Scheduler, steps: seq<Step>): Scheduler
    requires Possible(t, steps)
    decreases |steps|
  {
    if steps == [] then t else Execute(Apply(t, steps[0]), steps[1..])
  }

  lemma PushFiles(q: Queues, job: Job)
    requires Filed(q)
    ensures Filed(Push(q, job)) && Total(Push(q, job)) == Total(q) + 1
  {
    var jobs := Waiting(q, job.session) + [job];
    assert Push(q, job) == Put(q, job.session, jobs);
    TotalPut(q, job.session, jobs);
    FiledPut(q, job.session, jobs);
  }

  lemma DropFiles(q: Queues, session: nat)
    requires Filed(q)
    ensures Filed(q - {session}) && Total(q - {session}) <= Total(q)
  {
    TotalPut(q, session, []);
    FiledPut(q, session, []);
  }

  lemma PopFiles(q: Queues, session: nat)
    requires Filed(q) && session in q
    ensures Filed(Pop(q, session)) && Total(Pop(q, session)) < Total(q)
  {
    TotalPut(q, session, q[session][1..]);
    FiledPut(q, session, q[session][1..]);
  }

  lemma StepKeepsValid(t: Scheduler, step: Step)
    requires Valid(t) && Enabled(t, step)
    ensures Valid(Apply(t, step))
  {
    match step
    case Final(job) => PushFiles(t.finals, job);
    case Partial(job) => PushFiles(t.partials, job);
    case DropSession(session) =>
      DropFiles(t.finals, session);
      DropFiles(t.partials, session);
    case WorkerTakes =>
      if t.finals != map[] {
        PopFiles(t.finals, NextSession(t.finals.Keys, t.lastFinal));
      } else {
        PopFiles(t.partials, NextSession(t.partials.Keys, t.lastPartial));
      }
    case _ =>
  }

  lemma {:induction false} RunKeepsValid(t: Scheduler, steps: seq<Step>)
    requires Valid(t) && Possible(t, steps)
    ensures Valid(Execute(t, steps))
    decreases |steps|
  {
    if steps == [] {
    } else {
      StepKeepsValid(t, steps[0]);
      RunKeepsValid(Apply(t, steps[0]), steps[1..]);
    }
  }

  /** Which kind of job a step starts, if it starts one. */
  function Started(t: Scheduler, step: Step): Option<bool>
    requires Enabled(t, step)
  {
    if step.WorkerTakes? then Some(Apply(t, step).active.value.final) else None
  }

  predicate AnyFinal(t: Scheduler) {
    exists k :: k in t.finals && t.finals[k] != []
  }

  /** No step starts or admits a partial job while a final job is queued. */
  predicate PartialsWait(t: Scheduler, steps: seq<Step>)
    requires Possible(t, steps)
    decreases |steps|
  {
    steps != [] ==>
      && (Started(t, steps[0]) == Some(false) ==> !AnyFinal(t))
      && (steps[0].Partial? && AnyFinal(t) ==> Apply(t, steps[0]) == t)
      && PartialsWait(Apply(t, steps[0]), steps[1..])
  }

  /** This holds in every run. */
  lemma {:induction false} FinalsFirst(t: Scheduler, steps: seq<Step>)
    requires Valid(t) && Possible(t, steps)
    ensures PartialsWait(t, steps)
    decreases |steps|
  {
    if steps == [] {
    } else {
      StepKeepsValid(t, steps[0]);
      FinalsFirst(Apply(t, steps[0]), steps[1..]);
    }
  }

  // ---- The waiting lines of each session ----

  /** The final (or partial) jobs of one session that wait. */
  function LineOf(t: Scheduler, final: bool, session: nat): seq<Job> {
    Waiting(if final then t.finals else t.partials, session)
  }

  /** What a step means for these jobs. */
  function MoveOf(t: Scheduler, step: Step, final: bool, session: nat): L.Move
    requires Enabled(t, step)
  {
    match step
    case Final(job) =>
      if final && job.session == session && !t.closed && t.Queued() < t.maxJobs then L.Joins(job) else L.Stays
    case Partial(job) =>
      if !final && job.session == session && Idle(t) && session !in t.partials then L.Joins(job) else L.Stays
    case DropSession(dropped) => if dropped == session then L.Cleared else L.Stays
    case CloseAll => L.Cleared
    case WorkerTakes => if Dispatched(t, step, final, session) != [] then L.Served else L.Stays
    case WorkerFinishes => L.Stays
  }

  /** Nothing runs, no final job waits, and there is room. */
  predicate Idle(t: Scheduler) {
    !t.closed && t.active.None? && t.finals == map[] && t.Queued() < t.maxJobs
  }

  /** The job that the recognizer gets in this step, if it is one of that kind and session. */
  function Dispatched(t: Scheduler, step: Step, final: bool, session: nat): seq<Job>
    requires Enabled(t, step)
  {
    var active := Apply(t, step).active;
    if step.WorkerTakes? && active.Some? && active.value.final == final && active.value.job.session == session
    then [active.value.job]
    else []
  }

  lemma StepMoves(t: Scheduler, step: Step, final: bool, session: nat)
    requires Valid(t) && Enabled(t, step)
    ensures var line, m := LineOf(t, final, session), MoveOf(t, step, final, session);
            && LineOf(Apply(t, step), final, session) == L.After(line, m)
            && Dispatched(t, step, final, session) == L.Head(line, m)
  {
  }

  function MovesOf(t: Scheduler, steps: seq<Step>, final: bool, session: nat): seq<L.Move>
    requires Possible(t, steps)
    decreases |steps|
  {
    if steps == [] then []
    else [MoveOf(t, steps[0], final, session)] + MovesOf(Apply(t, steps[0]), steps[1..], final, session)
  }

  function AllDispatched(t: Scheduler, steps: seq<Step>, final: bool, session: nat): seq<Job>
    requires Possible(t, steps)
    decreases |steps|
  {
    if steps == [] then []
    else Dispatched(t, steps[0], final, session) + AllDispatched(Apply(t, steps[0]), steps[1..], final, session)
  }

  lemma {:induction false} RunMoves(t: Scheduler, steps: seq<Step>, final: bool, session: nat)
    requires Valid(t) && Possible(t, steps)
    ensures var line, moves := LineOf(t, final, session), MovesOf(t, steps, final, session);
            && LineOf(Execute(t, steps), final, session) == L.AfterAll(line, moves)
            && AllDispatched(t, steps, final, session) == L.Taken(line, moves)
    decreases |steps|
  {
    if steps == [] {
    } else {
      var m, rest := MoveOf(t, steps[0], final, session), MovesOf(Apply(t, steps[0]), steps[1..], final, session);
      assert ([m] + rest)[1..] == rest;
      StepKeepsValid(t, steps[0]);
      StepMoves(t, steps[0], final, session);
      RunMoves(Apply(t, steps[0]), steps[1..], final, session);
    }
  }

  /**
   In every run, the accepted final (or partial) jobs of a session without those cancelled
   while they waited are the ones the recognizer got followed by the ones that wait, in the
   order of submission.
   */
  lemma FirstComeFirstServed(t: Scheduler, steps: seq<Step>, final: bool, session: nat)
    requires Valid(t) && Possible(t, steps) && t.finals == map[] && t.partials == map[]
    requires L.Distinct(L.Joined(MovesOf(t, steps, final, session)))
    ensures var moves := MovesOf(t, steps, final, session);
            L.Keep(L.Joined(moves), L.Lost([], moves))
            == AllDispatched(t, steps, final, session) + LineOf(Execute(t, steps), final, session)
  {
    var moves := MovesOf(t, steps, final, session);
    assert [] + L.Joined(moves) == L.Joined(moves);
    RunMoves(t, steps, final, session);
    L.FirstComeFirstServed([], moves);
  }

  // ---- Fairness ----

  /** The sessions whose final (or partial) jobs a run starts, in order. */
  function Served(t: Scheduler, steps: seq<Step>, final: bool): seq<nat>
    requires Possible(t, steps)
    decreases |steps|
  {
    if steps == [] then []
    else
      var later := Served(Apply(t, steps[0]), steps[1..], final);
      if Starts(t, steps[0], final) then [Apply(t, steps[0]).active.value.job.session] + later else later
  }

  predicate Starts(t: Scheduler, step: Step, final: bool)
    requires Enabled(t, step)
  {
    Started(t, step) == Some(final)
  }

  function QueuesOf(t: Scheduler, final: bool): Queues {
    if final then t.finals else t.partials
  }

  function LastOf(t: Scheduler, final: bool): Option<nat> {
    if final then t.lastFinal else t.lastPartial
  }

  /** Whenever such a job is started, the same sessions have one queued. */
  predicate Steady(t: Scheduler, steps: seq<Step>, final: bool, backlog: set<nat>)
    requires Possible(t, steps)
    decreases |steps|
  {
    steps != [] ==>
      && (Starts(t, steps[0], final) ==> QueuesOf(t, final).Keys == backlog)
      && Steady(Apply(t, steps[0]), steps[1..], final, backlog)
  }

  lemma TakesTheChoice(t: Scheduler, step: Step, final: bool)
    requires Valid(t) && Enabled(t, step)
    ensures Starts(t, step, final) ==>
              && QueuesOf(t, final) != map[]
              && var x := NextSession(QueuesOf(t, final).Keys, LastOf(t, final));
                 Apply(t, step).active.value.job.session == x && LastOf(Apply(t, step), final) == Some(x)
    ensures !Starts(t, step, final) ==> LastOf(Apply(t, step), final) == LastOf(t, final)
  {
  }

  lemma {:induction false} ServedAreTheChoices(t: Scheduler, steps: seq<Step>, final: bool, backlog: set<nat>)
    requires Valid(t) && Possible(t, steps) && Steady(t, steps, final, backlog)
    requires backlog != {} && Sorted(backlog) != []
    ensures Served(t, steps, final) == Picks(Sorted(backlog), LastOf(t, final), |Served(t, steps, final)|)
    decreases |steps|
  {
    if steps == [] {
    } else {
      var t' := Apply(t, steps[0]);
      StepKeepsValid(t, steps[0]);
      TakesTheChoice(t, steps[0], final);
      ServedAreTheChoices(t', steps[1..], final, backlog);
      if Starts(t, steps[0], final) {
        PicksFirst(Sorted(backlog), LastOf(t, final), |Served(t', steps[1..], final)|);
      }
    }
  }

  /** As many dispatches of one kind in a row as there are backlogged sessions serve each of them exactly once. */
  lemma RoundServesEach(t: Scheduler, steps: seq<Step>, final: bool, backlog: set<nat>)
    requires Valid(t) && Possible(t, steps) && Steady(t, steps, final, backlog)
    requires |Served(t, steps, final)| == |backlog| > 0
    ensures forall x :: x in backlog ==> x in Served(t, steps, final)
    ensures forall i, j :: 0 <= i < j < |backlog| ==> Served(t, steps, final)[i] != Served(t, steps, final)[j]
  {
    SortedIsSorted(backlog);
    ServedAreTheChoices(t, steps, final, backlog);
    EachOnce(Sorted(backlog), LastOf(t, final));
    forall x | x in backlog
      ensures x in Served(t, steps, final)
    {
      var j := IndexOf(Sorted(backlog), x);
      assert Sorted(backlog)[j] == x;
    }
  }

  /** With work queued the recognizer is busy, and free for the next job once it has finished. */
  lemma WorkNeverWaits(t: Scheduler)
    requires Valid(t) && t.Queued() > 0
    ensures if t.active.Some? then Enabled(t, WorkerFinishes) && Enabled(Apply(t, WorkerFinishes), WorkerTakes)
            else Enabled(t, WorkerTakes)
  {
  }

  /** A closed scheduler stays closed and takes no job, in every continuation. */
  lemma ClosedForGood(t: Scheduler, steps: seq<Step>)
    requires Possible(Apply(t, CloseAll), steps)
    ensures var end := Execute(Apply(t, CloseAll), steps);
            end.closed && end.finals == map[] && end.partials == map[]
  {
    StaysClosed(Apply(t, CloseAll), steps);
  }

  lemma {:induction false} StaysClosed(t: Scheduler, steps: seq<Step>)
    requires t.closed && t.finals == map[] && t.partials == map[] && Possible(t, steps)
    ensures Execute(t, steps).closed && Execute(t, steps).finals == map[] && Execute(t, steps).partials == map[]
    decreases |steps|
  {
    if steps == [] {
    } else {
      StaysClosed(Apply(t, steps[0]), steps[1..]);
    }
  }

  class STTScheduler {
    const maxJobs: nat
    var finals: Queues
    var partials: Queues
    var active: Option<Running>
    var lastFinal: Option<nat>
    var lastPartial: Option<nat>
    var closed: bool

    ghost function View(): Scheduler
      reads this
    {
      Scheduler(maxJobs, finals, partials, active, lastFinal, lastPartial, closed)
    }

    constructor (maxJobs: nat)
      ensures View() == Scheduler(maxJobs, map[], map[], None, None, None, false) && Valid(View())
    {
      this.maxJobs := maxJobs;
      finals, partials, active, lastFinal, lastPartial, closed := map[], map[], None, None, None, false;
    }

    method SubmitFinal(job: Job) returns (r: Outcome<SubmitError>)
      requires Valid(View())
      modifies this
      ensures Valid(View()) && View() == old(View()).SubmitFinal(job)
      ensures r == if old(closed) then Raised(SchedulerClosed)
                   else if old(Total(finals)) + old(Total(partials)) >= maxJobs then Raised(SchedulerFull)
                   else Pass
    {
      StepKeepsValid(View(), Final(job));
      if closed {
        return Raised(SchedulerClosed);
      }
      if Total(finals) + Total(partials) >= maxJobs {
        return Raised(SchedulerFull);
      }
      finals := Push(finals, job);
      r := Pass;
    }

    method SubmitPartial(job: Job) returns (accepted: bool)
      requires Valid(View())
      modifies this
      ensures Valid(View()) && View() == old(View()).SubmitPartial(job)
      ensures accepted <==> !old(closed) && old(active).None? && old(finals) == map[]
                            && old(Total(partials)) < maxJobs && job.session !in old(partials)
    {
      StepKeepsValid(View(), Partial(job));
      if closed || active.Some? || Total(finals) + Total(partials) >= maxJobs
         || finals != map[] || Waiting(partials, job.session) != [] {
        return false;
      }
      partials := Push(partials, job);
      accepted := true;
    }

    method CancelSession(session: nat)
      requires Valid(View())
      modifies this
      ensures Valid(View()) && View() == old(View()).CancelSession(session)
    {
      StepKeepsValid(View(), DropSession(session));
      finals := finals - {session};
      partials := partials - {session};
    }

    method Close()
      requires Valid(View())
      modifies this
      ensures Valid(View()) && View() == old(View()).Close()
    {
      closed := true;
      finals := map[];
      partials := map[];
    }

    method Take() returns (job: Running)
      requires Valid(View()) && Enabled(View(), WorkerTakes)
      modifies this
      ensures Valid(View()) && View() == old(View()).Dispatch() && active == Some(job)
    {
      StepKeepsValid(View(), WorkerTakes);
      if finals != map[] {
        var session := NextSession(finals.Keys, lastFinal);
        lastFinal := Some(session);
        job := Running(finals[session][0], true);
        finals := Pop(finals, session);
      } else {
        var session := NextSession(partials.Keys, lastPartial);
        lastPartial := Some(session);
        job := Running(partials[session][0], false);
        partials := Pop(partials, session);
      }
      active := Some(job);
    }

    method Finish()
      requires Valid(View()) && active.Some?
      modifies this
      ensures Valid(View()) && View() == old(View()).Finish()
    {
      active := None;
    }
  }
}
