/**
 The TTS worker pool scheduler (schedulers/tts.py).

 One step is one critical section of the condition variable. The value functions give
 the meaning of each step; `TtsScheduler` performs them in place.
 */
module TtsPool {
  import opened Options

  datatype Priority = FinalResponse | FillerOrSay

  datatype Job = Job(id: nat, session: nat, token: nat, priority: Priority)

  datatype SubmitError = Closed | Full

  predicate Distinct(order: seq<nat>) {
    forall i, j :: 0 <= i < j < |order| ==> order[i] != order[j]
  }

  function Without(order: seq<nat>, session: nat): seq<nat> {
    if order == [] then []
    else
      var before := Without(order[..|order| - 1], session);
      var last := order[|order| - 1];
      if last == session then before else before + [last]
  }

  /** The jobs that do not belong to a token. */
  function Retained(jobs: seq<Job>, token: nat): seq<Job> {
    if jobs == [] then []
    else
      var before := Retained(jobs[..|jobs| - 1], token);
      var job := jobs[|jobs| - 1];
      if job.token == token then before else before + [job]
  }

  function Rotated(order: seq<nat>, n: nat): seq<nat>
    requires n <= |order|
  {
    order[n..] + order[..n]
  }

  datatype Pool = Pool(
    workers: nat,
    maxJobs: nat,
    queues: map<nat, seq<Job>>,
    order: seq<nat>,
    activeSessions: set<nat>,
    active: map<nat, Job>,
    closed: bool)
  {
    function Queue(session: nat): seq<Job> {
      if session in queues then queues[session] else []
    }

    function Queued(sessions: seq<nat>): nat {
      if sessions == [] then 0 else |Queue(sessions[0])| + Queued(sessions[1..])
    }

    function JobCount(): nat {
      Queued(order) + |active|
    }

    predicate Runnable(session: nat) {
      Queue(session) != [] && session !in activeSessions
    }

    predicate Offers(session: nat, priority: Priority) {
      Runnable(session) && Queue(session)[0].priority == priority
    }

    /** The first place from `n` on whose session offers a job of the priority. */
    function First(priority: Priority, n: nat): (i: nat)
      requires n <= |order|
      ensures n <= i <= |order|
      ensures i < |order| ==> Offers(order[i], priority)
      ensures forall k :: n <= k < i ==> !Offers(order[k], priority)
      decreases |order| - n
    {
      if n == |order| || Offers(order[n], priority) then n else First(priority, n + 1)
    }

    /** The place in the rotation that is served next: a final response before any filler. */
    function Pick(): (i: nat)
      ensures i <= |order| && (i < |order| ==> Runnable(order[i]))
    {
      var final := First(FinalResponse, 0);
      if final < |order| then final else First(FillerOrSay, 0)
    }

    function Drop(session: nat): Pool {
      this.(queues := queues - {session}, order := Without(order, session))
    }

    predicate Accepts() {
      !closed && JobCount() < maxJobs
    }

    function Submit(job: Job): Pool {
      if !Accepts() then this
      else
        var s := job.session;
        this.(queues := queues[s := Queue(s) + [job]], order := if s in queues then order else order + [s])
    }

    function CancelGeneration(session: nat, token: nat): Pool {
      var retained := Retained(Queue(session), token);
      if retained != [] then this.(queues := queues[session := retained]) else Drop(session)
    }

    function NextJob(): (Pool, Job)
      requires Pick() < |order|
    {
      var s := order[Pick()];
      (this.(queues := queues[s := Queue(s)[1..]], order := Rotated(order, Pick() + 1)), Queue(s)[0])
    }

    function Dispatch(worker: nat): Pool
      requires Pick() < |order|
    {
      var (next, job) := NextJob();
      next.(active := active[worker := job], activeSessions := activeSessions + {job.session})
    }

    function Complete(worker: nat): Pool
      requires worker in active
    {
      var s := active[worker].session;
      var idle := this.(active := active - {worker}, activeSessions := activeSessions - {s});
      if Queue(s) == [] then idle.Drop(s) else idle
    }

    function Close(): Pool {
      if closed then this else this.(closed := true, queues := map[], order := [])
    }

    // ---- What every operation keeps ----

    /** The rotation lists the queued sessions. */
    ghost predicate Listed() {
      Distinct(order) && forall s :: s in order <==> s in queues
    }

    /** Jobs wait in the queue of their session, and an empty queue belongs to an active session. */
    predicate Sorted() {
      forall s :: s in queues ==>
        && (queues[s] == [] ==> s in activeSessions)
        && forall k :: 0 <= k < |queues[s]| ==> queues[s][k].session == s
    }

    ghost predicate Works(session: nat) {
      exists w :: w in active && active[w].session == session
    }

    /** The active sessions are those of the active jobs, one job each. */
    ghost predicate Engaged() {
      && (forall w :: w in active ==> w < workers)
      && (forall s :: s in activeSessions <==> Works(s))
      && (forall v, w :: v in active && w in active && v != w ==> active[v].session != active[w].session)
    }

    ghost predicate Valid() {
      Listed() && Sorted() && Engaged() && JobCount() <= maxJobs
    }
  }

  function Initial(workers: nat, maxJobs: nat): Pool {
    Pool(workers, maxJobs, map[], [], {}, map[], false)
  }

  // ---- Sequences ----

  lemma {:induction false} WithoutFacts(order: seq<nat>, session: nat)
    requires Distinct(order)
    ensures Distinct(Without(order, session))
    ensures forall s :: s in Without(order, session) <==> s in order && s != session
  {
    if order == [] {
    } else {
      var front, last := order[..|order| - 1], order[|order| - 1];
      WithoutFacts(front, session);
      assert order == front + [last] && last !in front;
      forall i | 0 <= i < |Without(front, session)|
        ensures Without(front, session)[i] != last
      {
        assert Without(front, session)[i] in Without(front, session);
      }
    }
  }

  lemma {:induction false} QueuedConcat(p: Pool, a: seq<nat>, b: seq<nat>)
    ensures p.Queued(a + b) == p.Queued(a) + p.Queued(b)
  {
    if a == [] {
      assert a + b == b;
    } else {
      assert (a + b)[1..] == a[1..] + b;
      QueuedConcat(p, a[1..], b);
    }
  }

  /** Sessions outside the sum do not matter to it. */
  lemma {:induction false} QueuedSame(p: Pool, p': Pool, sessions: seq<nat>)
    requires forall s :: s in sessions ==> p.Queue(s) == p'.Queue(s)
    ensures p.Queued(sessions) == p'.Queued(sessions)
  {
    if sessions == [] {
    } else {
      assert sessions[0] in sessions;
      QueuedSame(p, p', sessions[1..]);
    }
  }

  lemma {:induction false} QueuedWithout(p: Pool, sessions: seq<nat>, session: nat)
    ensures p.Queued(Without(sessions, session)) <= p.Queued(sessions)
  {
    if sessions == [] {
    } else {
      var front, last := sessions[..|sessions| - 1], sessions[|sessions| - 1];
      QueuedWithout(p, front, session);
      assert sessions == front + [last];
      QueuedConcat(p, front, [last]);
      QueuedConcat(p, Without(front, session), [last]);
    }
  }

  /** Changing one queue changes the sum by the difference of its lengths. */
  lemma {:induction false} QueuedChange(p: Pool, p': Pool, sessions: seq<nat>, session: nat)
    requires Distinct(sessions)
    requires session in sessions
    requires forall s :: s in sessions && s != session ==> p.Queue(s) == p'.Queue(s)
    ensures p'.Queued(sessions) - |p'.Queue(session)| == p.Queued(sessions) - |p.Queue(session)|
  {
    if sessions[0] == session {
      assert forall s :: s in sessions[1..] ==> s != session;
      QueuedSame(p, p', sessions[1..]);
    } else {
      QueuedChange(p, p', sessions[1..], session);
    }
  }

  lemma {:induction false} RetainedFacts(jobs: seq<Job>, token: nat)
    ensures |Retained(jobs, token)| <= |jobs|
    ensures forall job :: job in Retained(jobs, token) <==> job in jobs && job.token != token
  {
    if jobs == [] {
    } else {
      RetainedFacts(jobs[..|jobs| - 1], token);
      assert jobs == jobs[..|jobs| - 1] + [jobs[|jobs| - 1]];
    }
  }

  // ---- Invariant ----

  lemma InitialValid(workers: nat, maxJobs: nat)
    ensures Initial(workers, maxJobs).Valid()
  {
  }

  lemma AddsOne(p: Pool, p': Pool, job: Job)
    requires p.Listed() && p.Accepts() && p' == p.Submit(job)
    ensures p'.Listed() && p'.Queued(p'.order) == p.Queued(p.order) + 1
  {
    var s := job.session;
    if s in p.queues {
      QueuedChange(p, p', p.order, s);
    } else {
      QueuedSame(p, p', p.order);
      QueuedConcat(p', p.order, [s]);
      assert p'.Queued([s]) == |p'.Queue(s)| + p'.Queued([]);
    }
  }

  lemma SubmitValid(p: Pool, job: Job)
    requires p.Valid()
    ensures p.Submit(job).Valid()
  {
    if p.Accepts() {
      AddsOne(p, p.Submit(job), job);
      assert p.Submit(job).Sorted();
      SameEngaged(p, p.Submit(job));
    }
  }

  lemma SameEngaged(p: Pool, p': Pool)
    requires p.Engaged() && p'.active == p.active && p'.activeSessions == p.activeSessions && p'.workers == p.workers
    ensures p'.Engaged()
  {
    forall s
      ensures p'.Works(s) <==> p.Works(s)
    {
    }
  }

  lemma DropListed(p: Pool, session: nat)
    requires p.Listed()
    ensures p.Drop(session).Listed()
    ensures p.Drop(session).JobCount() <= p.JobCount()
  {
    WithoutFacts(p.order, session);
    QueuedWithout(p, p.order, session);
    QueuedSame(p, p.Drop(session), Without(p.order, session));
  }

  lemma RetainListed(p: Pool, session: nat, retained: seq<Job>)
    requires p.Listed() && retained != [] && |retained| <= |p.Queue(session)|
    ensures var p' := p.(queues := p.queues[session := retained]);
            p'.Listed() && p'.Queued(p'.order) <= p.Queued(p.order)
  {
    QueuedChange(p, p.(queues := p.queues[session := retained]), p.order, session);
  }

  lemma CancelValid(p: Pool, session: nat, token: nat)
    requires p.Valid()
    ensures p.CancelGeneration(session, token).Valid()
  {
    var retained := Retained(p.Queue(session), token);
    RetainedFacts(p.Queue(session), token);
    if retained != [] {
      assert retained[0] in retained;
      RetainListed(p, session, retained);
      forall k | 0 <= k < |retained|
        ensures retained[k].session == session
      {
        assert retained[k] in p.Queue(session);
      }
    } else {
      DropListed(p, session);
    }
    SameEngaged(p, p.CancelGeneration(session, token));
  }

  lemma RotatedDistinct(order: seq<nat>, n: nat)
    requires Distinct(order) && n <= |order|
    ensures Distinct(Rotated(order, n)) && forall s :: s in Rotated(order, n) <==> s in order
  {
    var front, back := order[..n], order[n..];
    assert order == front + back;
    forall i, j | 0 <= i < j < |order|
      ensures Rotated(order, n)[i] != Rotated(order, n)[j]
    {
      var a := if i < |back| then n + i else i - |back|;
      var b := if j < |back| then n + j else j - |back|;
      assert Rotated(order, n)[i] == order[a] && Rotated(order, n)[j] == order[b] && a != b;
    }
  }

  lemma RotatedListed(p: Pool, n: nat)
    requires p.Listed() && n <= |p.order|
    ensures p.(order := Rotated(p.order, n)).Listed()
    ensures p.Queued(Rotated(p.order, n)) == p.Queued(p.order)
  {
    var front, back := p.order[..n], p.order[n..];
    assert p.order == front + back;
    QueuedConcat(p, front, back);
    QueuedConcat(p, back, front);
    RotatedDistinct(p.order, n);
  }

  lemma EngageOne(p: Pool, p': Pool, worker: nat, job: Job)
    requires p.Engaged() && worker < p.workers && worker !in p.active && job.session !in p.activeSessions
    requires p'.active == p.active[worker := job] && p'.activeSessions == p.activeSessions + {job.session}
    requires p'.workers == p.workers
    ensures p'.Engaged() && |p'.active| == |p.active| + 1
  {
    assert p'.active.Keys == p.active.Keys + {worker};
    forall s
      ensures p'.Works(s) <==> p.Works(s) || s == job.session
    {
      if s == job.session {
        assert p'.active[worker].session == s;
      } else if p.Works(s) {
        var w :| w in p.active && p.active[w].session == s;
        assert w in p'.active && p'.active[w].session == s;
      }
    }
    forall w | w in p.active
      ensures p.active[w].session != job.session
    {
      assert p.Works(p.active[w].session);
    }
  }

  lemma PopKeeps(p: Pool, s: nat)
    requires p.Listed() && p.Sorted() && p.Queue(s) != []
    ensures var popped := p.(queues := p.queues[s := p.Queue(s)[1..]]);
            && popped.Listed() && popped.Queued(p.order) == p.Queued(p.order) - 1
            && popped.(activeSessions := p.activeSessions + {s}).Sorted()
  {
    QueuedChange(p, p.(queues := p.queues[s := p.Queue(s)[1..]]), p.order, s);
  }

  lemma DispatchListed(p: Pool, worker: nat)
    requires p.Listed() && p.Sorted() && p.Pick() < |p.order|
    ensures var p' := p.Dispatch(worker);
            p'.Listed() && p'.Sorted() && p'.Queued(p'.order) == p.Queued(p.order) - 1
  {
    var s := p.order[p.Pick()];
    var popped := p.(queues := p.queues[s := p.Queue(s)[1..]]);
    PopKeeps(p, s);
    RotatedListed(popped, p.Pick() + 1);
    var p' := p.Dispatch(worker);
    QueuedSame(popped, p', p'.order);
    assert p.Queue(s)[0].session == s;
  }

  lemma DispatchValid(p: Pool, worker: nat)
    requires p.Valid() && worker < p.workers && worker !in p.active && p.Pick() < |p.order|
    ensures p.Dispatch(worker).Valid()
  {
    var s := p.order[p.Pick()];
    DispatchListed(p, worker);
    assert p.Queue(s)[0].session == s;
    EngageOne(p, p.Dispatch(worker), worker, p.Queue(s)[0]);
  }

  lemma ReleaseOne(p: Pool, p': Pool, worker: nat)
    requires p.Engaged() && worker in p.active
    requires p'.active == p.active - {worker} && p'.workers == p.workers
    requires p'.activeSessions == p.activeSessions - {p.active[worker].session}
    ensures p'.Engaged() && |p'.active| == |p.active| - 1
  {
    assert p'.active.Keys == p.active.Keys - {worker};
    forall s
      ensures p'.Works(s) <==> p.Works(s) && s != p.active[worker].session
    {
      if p.Works(s) && s != p.active[worker].session {
        var w :| w in p.active && p.active[w].session == s;
        assert w in p'.active && p'.active[w].session == s;
      }
    }
  }

  lemma CompleteValid(p: Pool, worker: nat)
    requires p.Valid() && worker in p.active
    ensures p.Complete(worker).Valid()
  {
    var s := p.active[worker].session;
    var p' := p.Complete(worker);
    ReleaseOne(p, p', worker);
    var idle := p.(active := p'.active, activeSessions := p'.activeSessions);
    QueuedSame(p, idle, p.order);
    if p.Queue(s) == [] {
      DropListed(idle, s);
    }
    assert p'.Sorted();
  }

  lemma CloseValid(p: Pool)
    requires p.Valid()
    ensures p.Close().Valid()
  {
    SameEngaged(p, p.Close());
  }

  /** Whenever a job is runnable one is found, and never a filler past a final response. */
  lemma NeverIdlesOnWork(p: Pool, session: nat)
    requires p.Valid() && p.Runnable(session)
    ensures p.Pick() < |p.order|
    ensures var (next, job) := p.NextJob();
            && job == p.Queue(job.session)[0] && p.Runnable(job.session)
            && (p.Offers(session, FinalResponse) ==> job.priority == FinalResponse)
  {
    assert session in p.order;
    var k :| 0 <= k < |p.order| && p.order[k] == session;
    assert p.Offers(session, FinalResponse) || p.Offers(session, FillerOrSay);
  }

  /**
   The next job is the head of the first queue in the rotation that offers its priority,
   a filler only while no final response is offered; its session then goes to the back.
   */
  lemma NextIsFirst(p: Pool)
    requires p.Pick() < |p.order|
    ensures var k, (next, job) := p.Pick(), p.NextJob();
            var s := p.order[k];
            && p.Queue(s) != [] && s !in p.activeSessions && job == p.Queue(s)[0]
            && (forall j :: 0 <= j < k ==> !p.Offers(p.order[j], job.priority))
            && (job.priority.FillerOrSay? ==> forall j :: 0 <= j < |p.order| ==> !p.Offers(p.order[j], FinalResponse))
            && next.order == p.order[k + 1..] + p.order[..k] + [s]
            && next.Queue(s) == p.Queue(s)[1..]
            && (forall t :: t != s ==> next.Queue(t) == p.Queue(t))
  {
    var k := p.Pick();
    assert p.order[..k + 1] == p.order[..k] + [p.order[k]];
  }

  // ---- Runs ----

  datatype Step =
    | Submit(job: Job)
    | CancelGeneration(session: nat, token: nat)
    | Dispatch(worker: nat)
    | Complete(worker: nat)
    | Close

  predicate Enabled(p: Pool, step: Step) {
    match step
    case Dispatch(w) => !p.closed && w < p.workers && w !in p.active && p.Pick() < |p.order|
    case Complete(w) => w in p.active
    case _ => true
  }

  function Apply(p: Pool, step: Step): Pool
    requires Enabled(p, step)
  {
    match step
    case Submit(job) => p.Submit(job)
    case CancelGeneration(session, token) => p.CancelGeneration(session, token)
    case Dispatch(w) => p.Dispatch(w)
    case Complete(w) => p.Complete(w)
    case Close => p.Close()
  }

  lemma StepKeepsValid(p: Pool, step: Step)
    requires p.Valid() && Enabled(p, step)
    ensures Apply(p, step).Valid()
  {
    match step
    case Submit(job) => SubmitValid(p, job);
    case CancelGeneration(session, token) => CancelValid(p, session, token);
    case Dispatch(w) => DispatchValid(p, w);
    case Complete(w) => CompleteValid(p, w);
    case Close => CloseValid(p);
  }
}
