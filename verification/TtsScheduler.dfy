/** `TTSScheduler` in place: each method is one critical section of the condition. */
module TtsScheduling {
  import opened Options
  import opened TtsPool

  datatype ConfigError = WorkerCount | TooFewJobs

  class TtsScheduler {
    const workers: nat
    const maxJobs: nat
    var queues: map<nat, seq<Job>>
    var sessionOrder: seq<nat>
    var activeSessions: set<nat>
    var active: map<nat, Job>
    var closed: bool

    function View(): Pool
      reads this
    {
      Pool(workers, maxJobs, queues, sessionOrder, activeSessions, active, closed)
    }

    constructor (workers: nat, maxJobs: nat)
      requires 1 <= workers <= 4 && workers <= maxJobs
      ensures View() == Initial(workers, maxJobs) && View().Valid()
    {
      this.workers, this.maxJobs := workers, maxJobs;
      queues, sessionOrder, activeSessions, active, closed := map[], [], {}, map[], false;
      new;
      InitialValid(workers, maxJobs);
    }

    static method Create(workers: int, maxJobs: int) returns (r: Result<TtsScheduler, ConfigError>)
      ensures r.Ok? <==> 1 <= workers <= 4 && workers <= maxJobs
      ensures r.Ok? ==> fresh(r.value) && r.value.View() == Initial(workers, maxJobs) && r.value.View().Valid()
      ensures r.Err? ==> r.error == if 1 <= workers <= 4 then TooFewJobs else WorkerCount
    {
      if !(1 <= workers <= 4) {
        return Err(WorkerCount);
      }
      if maxJobs < workers {
        return Err(TooFewJobs);
      }
      var scheduler := new TtsScheduler(workers, maxJobs);
      r := Ok(scheduler);
    }

    method Synthesize(job: Job) returns (r: Outcome<SubmitError>)
      requires View().Valid()
      modifies this
      ensures View() == old(View()).Submit(job) && View().Valid()
      ensures r == if old(closed) then Raised(SubmitError.Closed)
                   else if old(View()).Queued(old(sessionOrder)) + |old(active)| >= maxJobs then Raised(Full)
                   else Pass
    {
      SubmitValid(View(), job);
      if closed {
        return Raised(SubmitError.Closed);
      }
      if View().JobCount() >= maxJobs {
        return Raised(Full);
      }
      Enqueue(job);
      r := Pass;
    }

    method Enqueue(job: Job)
      requires View().Accepts()
      modifies this`queues, this`sessionOrder
      ensures View() == old(View()).Submit(job)
    {
      var s := job.session;
      if s !in queues {
        queues := queues[s := []];
        sessionOrder := sessionOrder + [s];
      }
      queues := queues[s := queues[s] + [job]];
    }

    method CancelGeneration(session: nat, token: nat)
      requires View().Valid()
      modifies this
      ensures View() == old(View()).CancelGeneration(session, token) && View().Valid()
    {
      CancelValid(View(), session, token);
      var jobs := if session in queues then queues[session] else [];
      var retained: seq<Job> := [];
      var i := 0;
      while i < |jobs|
        invariant i <= |jobs|
        invariant retained == Retained(jobs[..i], token)
      {
        assert jobs[..i + 1][..i] == jobs[..i];
        if jobs[i].token != token {
          retained := retained + [jobs[i]];
        }
        i := i + 1;
      }
      assert jobs[..i] == jobs;
      if retained != [] {
        queues := queues[session := retained];
      } else {
        DropSessionQueue(session);
      }
    }

    method DropSessionQueue(session: nat)
      requires Distinct(sessionOrder)
      modifies this`queues, this`sessionOrder
      ensures View() == old(View()).Drop(session)
    {
      queues := queues - {session};
      var i := 0;
      while i < |sessionOrder| && sessionOrder[i] != session
        invariant i <= |sessionOrder|
        invariant session !in sessionOrder[..i]
      {
        i := i + 1;
      }
      WithoutOne(sessionOrder, session, i);
      if i < |sessionOrder| {
        sessionOrder := sessionOrder[..i] + sessionOrder[i + 1..];
      }
    }

    /** One turn of the rotation, stopping behind the first session that offers the priority. */
    method Scan(priority: Priority) returns (job: Option<Job>)
      modifies this`queues, this`sessionOrder
      ensures var p, i := old(View()), old(View()).First(priority, 0);
              if i < |p.order| then
                && job == Some(p.Queue(p.order[i])[0])
                && queues == p.queues[p.order[i] := p.Queue(p.order[i])[1..]]
                && sessionOrder == Rotated(p.order, i + 1)
              else job == None && queues == p.queues && sessionOrder == p.order
    {
      ghost var p := View();
      var count, k := |sessionOrder|, 0;
      while k < count
        invariant k <= count == |p.order|
        invariant queues == p.queues && sessionOrder == Rotated(p.order, k)
        invariant forall i :: 0 <= i < k ==> !p.Offers(p.order[i], priority)
      {
        var session := sessionOrder[0];
        sessionOrder := sessionOrder[1..] + [session];
        assert sessionOrder == Rotated(p.order, k + 1);
        var jobs := if session in queues then queues[session] else [];
        if jobs != [] && session !in activeSessions && jobs[0].priority == priority {
          FirstIs(p, priority, 0, k);
          queues := queues[session := jobs[1..]];
          return Some(jobs[0]);
        }
        k := k + 1;
      }
      FirstIs(p, priority, 0, count);
      assert sessionOrder == p.order;
      job := None;
    }

    /** A final response in rotation order, or else a filler in rotation order. */
    method NextJob() returns (job: Job)
      requires View().Pick() < |sessionOrder|
      modifies this`queues, this`sessionOrder
      ensures (View(), job) == old(View()).NextJob()
    {
      var found := Scan(FinalResponse);
      if found.None? {
        found := Scan(FillerOrSay);
      }
      job := found.value;
    }

    /** A worker wakes up with a runnable job. */
    method StartJob(worker: nat) returns (job: Job)
      requires View().Valid() && !closed && worker < workers && worker !in active
      requires exists s :: View().Runnable(s)
      modifies this
      ensures old(View()).Pick() < |old(View()).order|
      ensures View() == old(View()).Dispatch(worker) && View().Valid()
      ensures job == old(View()).NextJob().1
    {
      ghost var s :| View().Runnable(s);
      NeverIdlesOnWork(View(), s);
      DispatchValid(View(), worker);
      job := NextJob();
      activeSessions := activeSessions + {job.session};
      active := active[worker := job];
    }

    /** The `finally` block of a worker. */
    method EndJob(worker: nat)
      requires View().Valid() && worker in active
      modifies this
      ensures View() == old(View()).Complete(worker) && View().Valid()
    {
      CompleteValid(View(), worker);
      var session := active[worker].session;
      active := active - {worker};
      activeSessions := activeSessions - {session};
      if session !in queues || queues[session] == [] {
        DropSessionQueue(session);
      }
    }

    method Close()
      requires View().Valid()
      modifies this
      ensures View() == old(View()).Close() && View().Valid()
    {
      CloseValid(View());
      if closed {
        return;
      }
      closed := true;
      queues := map[];
      sessionOrder := [];
    }
  }

  lemma {:induction false} WithoutAbsent(order: seq<nat>, session: nat)
    requires session !in order
    ensures Without(order, session) == order
  {
    if order == [] {
    } else {
      WithoutAbsent(order[..|order| - 1], session);
    }
  }

  lemma {:induction false} WithoutOne(order: seq<nat>, session: nat, i: nat)
    requires Distinct(order) && i <= |order| && session !in order[..i]
    requires i < |order| ==> order[i] == session
    ensures Without(order, session) == if i < |order| then order[..i] + order[i + 1..] else order
  {
    if order == [] {
    } else {
      var front, last := order[..|order| - 1], order[|order| - 1];
      if i == |order| {
        assert order[..i] == order;
        WithoutAbsent(order, session);
      } else if i == |order| - 1 {
        WithoutAbsent(front, session);
        assert order[..i] + order[i + 1..] == front;
      } else {
        assert front[..i] == order[..i];
        WithoutOne(front, session, i);
        assert order[..i] + order[i + 1..] == front[..i] + front[i + 1..] + [last];
      }
    }
  }

  lemma {:induction false} FirstIs(p: Pool, priority: Priority, n: nat, k: nat)
    requires n <= k <= |p.order| && (k < |p.order| ==> p.Offers(p.order[k], priority))
    requires forall i :: n <= i < k ==> !p.Offers(p.order[i], priority)
    ensures p.First(priority, n) == k
    decreases k - n
  {
    if n >= k {
    } else {
      FirstIs(p, priority, n + 1, k);
    }
  }
}
