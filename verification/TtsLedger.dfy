/**
 What becomes of the jobs that the TTS pool accepts.

 Main results, for every interleaving: a session's jobs are dispatched in submission
 order minus the cancelled ones, and every accepted job is exactly one of queued,
 active or settled.
 */
module TtsLedger {
  import opened Options
  import opened TtsPool

  /** A pool with the history of its jobs. `removed` and `finished` hold job ids. */
  datatype Ledger = Ledger(
    pool: Pool,
    accepted: seq<Job>,
    dispatched: seq<Job>,
    removed: set<nat>,   // cancelled while queued
    finished: set<nat>)  // completed by a worker

  /** The jobs of one session outside a set of ids, in order. */
  function Of(jobs: seq<Job>, session: nat, except: set<nat>): seq<Job> {
    if jobs == [] then []
    else
      var before := Of(jobs[..|jobs| - 1], session, except);
      var job := jobs[|jobs| - 1];
      if job.session == session && job.id !in except then before + [job] else before
  }

  function Ids(jobs: seq<Job>): set<nat> {
    set job | job in jobs :: job.id
  }

  predicate Unique(jobs: seq<Job>) {
    forall i, j :: 0 <= i < j < |jobs| ==> jobs[i].id != jobs[j].id
  }

  predicate WellTimed(l: Ledger, step: Step) {
    Enabled(l.pool, step) && (step.Submit? ==> step.job.id !in Ids(l.accepted))
  }

  function Cancelled(p: Pool, session: nat, token: nat): set<nat> {
    set job | job in p.Queue(session) && job.token == token :: job.id
  }

  /** The accepted jobs that are neither cancelled nor completed, by their ids. */
  function Outstanding(l: Ledger): set<nat> {
    Ids(l.accepted) - l.removed - l.finished
  }

  /** The pool is open and has fewer jobs outstanding than it may hold. */
  predicate HasRoom(l: Ledger) {
    !l.pool.closed && |Outstanding(l)| < l.pool.maxJobs
  }

  function Advance(l: Ledger, step: Step): Ledger
    requires WellTimed(l, step)
  {
    var next := l.(pool := Apply(l.pool, step));
    match step
    case Submit(job) => if HasRoom(l) then next.(accepted := l.accepted + [job]) else next
    case CancelGeneration(session, token) => next.(removed := l.removed + Cancelled(l.pool, session, token))
    case Dispatch(_) => next.(dispatched := l.dispatched + [l.pool.NextJob().1])
    case Complete(w) => next.(finished := l.finished + {l.pool.active[w].id})
    case Close => if l.pool.closed then next else next.(removed := l.removed + QueuedIds(l.pool))
  }

  /** Per session: accepted minus removed is dispatched followed by queued. */
  predicate SessionInOrder(l: Ledger, session: nat) {
    Of(l.accepted, session, l.removed) == Of(l.dispatched, session, {}) + l.pool.Queue(session)
  }

  ghost predicate InOrder(l: Ledger) {
    forall s :: SessionInOrder(l, s)
  }

  ghost predicate Active(l: Ledger, job: Job) {
    exists w :: w in l.pool.active && l.pool.active[w] == job
  }

  ghost predicate Accounted(l: Ledger) {
    && l.pool.Valid()
    && Unique(l.accepted) && Unique(l.dispatched)
    && InOrder(l)
    && (forall job :: job in l.dispatched ==> job in l.accepted && job.id !in l.removed)
    && (forall job :: job in l.dispatched ==> (job.id in l.finished <==> !Active(l, job)))
    && (forall job :: Active(l, job) ==> job in l.dispatched)
    && l.finished <= Ids(l.dispatched)
    && l.removed <= Ids(l.accepted)
  }

  // ---- Subsequences ----

  lemma {:induction false} OfMember(jobs: seq<Job>, session: nat, except: set<nat>, job: Job)
    ensures job in Of(jobs, session, except) <==> job in jobs && job.session == session && job.id !in except
  {
    if jobs == [] {
    } else {
      OfMember(jobs[..|jobs| - 1], session, except, job);
      assert jobs == jobs[..|jobs| - 1] + [jobs[|jobs| - 1]];
    }
  }

  lemma OfAppend(jobs: seq<Job>, job: Job, session: nat, except: set<nat>)
    ensures Of(jobs + [job], session, except) ==
            Of(jobs, session, except) + if job.session == session && job.id !in except then [job] else []
  {
    assert (jobs + [job])[..|jobs|] == jobs;
  }

  function Drop(jobs: seq<Job>, ids: set<nat>): seq<Job> {
    if jobs == [] then []
    else
      var before := Drop(jobs[..|jobs| - 1], ids);
      var job := jobs[|jobs| - 1];
      if job.id in ids then before else before + [job]
  }

  lemma {:induction false} OfMore(jobs: seq<Job>, session: nat, except: set<nat>, more: set<nat>)
    ensures Of(jobs, session, except + more) == Drop(Of(jobs, session, except), more)
  {
    if jobs == [] {
    } else {
      OfMore(jobs[..|jobs| - 1], session, except, more);
      var before := Of(jobs[..|jobs| - 1], session, except);
      assert (before + [jobs[|jobs| - 1]])[..|before|] == before;
    }
  }

  lemma {:induction false} DropConcat(a: seq<Job>, b: seq<Job>, ids: set<nat>)
    ensures Drop(a + b, ids) == Drop(a, ids) + Drop(b, ids)
  {
    if b == [] {
      assert a + b == a;
    } else {
      assert (a + b)[..|a + b| - 1] == a + b[..|b| - 1];
      DropConcat(a, b[..|b| - 1], ids);
    }
  }

  lemma {:induction false} DropNone(jobs: seq<Job>, ids: set<nat>)
    requires forall job :: job in jobs ==> job.id !in ids
    ensures Drop(jobs, ids) == jobs
  {
    if jobs == [] {
    } else {
      assert jobs == jobs[..|jobs| - 1] + [jobs[|jobs| - 1]];
      DropNone(jobs[..|jobs| - 1], ids);
    }
  }

  lemma {:induction false} DropAll(jobs: seq<Job>, ids: set<nat>)
    requires forall job :: job in jobs ==> job.id in ids
    ensures Drop(jobs, ids) == []
  {
    if jobs == [] {
    } else {
      assert jobs == jobs[..|jobs| - 1] + [jobs[|jobs| - 1]];
      DropAll(jobs[..|jobs| - 1], ids);
    }
  }

  /** Removing a token's jobs is removing their ids. */
  lemma {:induction false} DropRetains(jobs: seq<Job>, token: nat, ids: set<nat>)
    requires forall job :: job in jobs ==> (job.id in ids <==> job.token == token)
    ensures Drop(jobs, ids) == Retained(jobs, token)
  {
    if jobs == [] {
    } else {
      assert jobs == jobs[..|jobs| - 1] + [jobs[|jobs| - 1]];
      DropRetains(jobs[..|jobs| - 1], token, ids);
    }
  }

  lemma SameId(jobs: seq<Job>, a: Job, b: Job)
    requires Unique(jobs) && a in jobs && b in jobs && a.id == b.id
    ensures a == b
  {
  }

  lemma QueuedIsAccepted(l: Ledger, session: nat, job: Job)
    requires Accounted(l) && job in l.pool.Queue(session)
    ensures job in l.accepted && job.id !in l.removed && job.session == session
  {
    assert SessionInOrder(l, session);
    OfMember(l.accepted, session, l.removed, job);
  }

  // ---- A job is in one place only ----

  lemma {:induction false} OfUnique(jobs: seq<Job>, session: nat, except: set<nat>)
    requires Unique(jobs)
    ensures Unique(Of(jobs, session, except))
  {
    if jobs == [] {
    } else {
      var front, last := jobs[..|jobs| - 1], jobs[|jobs| - 1];
      OfUnique(front, session, except);
      forall i | 0 <= i < |Of(front, session, except)|
        ensures Of(front, session, except)[i].id != last.id
      {
        OfMember(front, session, except, Of(front, session, except)[i]);
      }
    }
  }

  lemma UniqueParts(a: seq<Job>, b: seq<Job>, x: Job, y: Job)
    requires Unique(a + b) && x in a && y in b
    ensures x.id != y.id
  {
    var i :| 0 <= i < |a| && a[i] == x;
    var k :| 0 <= k < |b| && b[k] == y;
    assert (a + b)[i] == x && (a + b)[|a| + k] == y;
  }

  lemma QueuedIsNotDispatched(l: Ledger, session: nat, job: Job)
    requires Accounted(l) && job in l.pool.Queue(session)
    ensures job.id !in Ids(l.dispatched)
  {
    QueuedIsAccepted(l, session, job);
    OfUnique(l.accepted, session, l.removed);
    assert SessionInOrder(l, session);
    forall other | other in l.dispatched
      ensures other.id != job.id
    {
      if other.session == session {
        OfMember(l.dispatched, session, {}, other);
        UniqueParts(Of(l.dispatched, session, {}), l.pool.Queue(session), other, job);
      }
    }
  }

  /** Every accepted job is exactly one of queued, active or settled. */
  lemma Conservation(l: Ledger, job: Job)
    requires Accounted(l) && job in l.accepted
    ensures var queued, active, settled :=
              job in l.pool.Queue(job.session), Active(l, job), job.id in l.removed || job.id in l.finished;
            (queued && !active && !settled) || (!queued && active && !settled) || (!queued && !active && settled)
  {
    OfMember(l.accepted, job.session, l.removed, job);
    OfMember(l.dispatched, job.session, {}, job);
    assert SessionInOrder(l, job.session);
    if job in l.pool.Queue(job.session) {
      QueuedIsNotDispatched(l, job.session, job);
    }
    if job.id in l.finished {
      var other :| other in l.dispatched && other.id == job.id;
      SameId(l.accepted, other, job);
    }
  }

  /** A session's dispatches follow submission order. */
  lemma DispatchedInSubmissionOrder(l: Ledger, session: nat)
    requires Accounted(l)
    ensures Of(l.dispatched, session, {}) <= Of(l.accepted, session, l.removed)
  {
    assert SessionInOrder(l, session);
  }

  // ---- The bound ----

  lemma {:induction false} UniqueIds(jobs: seq<Job>)
    requires Unique(jobs)
    ensures |Ids(jobs)| == |jobs|
    decreases |jobs|
  {
    if jobs == [] {
      assert Ids(jobs) == {};
    } else {
      var front, last := jobs[..|jobs| - 1], jobs[|jobs| - 1];
      UniqueIds(front);
      assert jobs == front + [last];
      assert Ids(jobs) == Ids(front) + {last.id};
      forall job | job in front
        ensures job.id != last.id
      {
        var i :| 0 <= i < |front| && front[i] == job;
        assert jobs[i] == job && jobs[|front|] == last;
      }
    }
  }

  function IdsOf(p: Pool, sessions: seq<nat>): set<nat> {
    if sessions == [] then {} else Ids(p.Queue(sessions[0])) + IdsOf(p, sessions[1..])
  }

  lemma {:induction false} IdsOfMember(p: Pool, sessions: seq<nat>, id: nat)
    ensures id in IdsOf(p, sessions) <==> exists s :: s in sessions && id in Ids(p.Queue(s))
    decreases |sessions|
  {
    if sessions == [] {
    } else {
      IdsOfMember(p, sessions[1..], id);
      assert forall s :: s in sessions <==> s == sessions[0] || s in sessions[1..];
    }
  }

  lemma QueueIsUnique(l: Ledger, session: nat)
    requires Accounted(l)
    ensures Unique(l.pool.Queue(session))
  {
    OfUnique(l.accepted, session, l.removed);
    assert SessionInOrder(l, session);
    var before, queue := Of(l.dispatched, session, {}), l.pool.Queue(session);
    forall i, j | 0 <= i < j < |queue|
      ensures queue[i].id != queue[j].id
    {
      assert (before + queue)[|before| + i] == queue[i] && (before + queue)[|before| + j] == queue[j];
    }
  }

  lemma OtherQueuesDiffer(l: Ledger, s: nat, t: nat)
    requires Accounted(l) && s != t
    ensures Ids(l.pool.Queue(s)) !! Ids(l.pool.Queue(t))
  {
    forall a, b | a in l.pool.Queue(s) && b in l.pool.Queue(t)
      ensures a.id != b.id
    {
      QueuedIsAccepted(l, s, a);
      QueuedIsAccepted(l, t, b);
      assert a.id == b.id ==> a == b by {
        if a.id == b.id {
          SameId(l.accepted, a, b);
        }
      }
    }
  }

  lemma {:induction false} QueuedIsCounted(l: Ledger, sessions: seq<nat>)
    requires Accounted(l) && Distinct(sessions)
    ensures |IdsOf(l.pool, sessions)| == l.pool.Queued(sessions)
    decreases |sessions|
  {
    if sessions == [] {
    } else {
      var s, rest := sessions[0], sessions[1..];
      QueuedIsCounted(l, rest);
      QueueIsUnique(l, s);
      UniqueIds(l.pool.Queue(s));
      forall id | id in Ids(l.pool.Queue(s))
        ensures id !in IdsOf(l.pool, rest)
      {
        IdsOfMember(l.pool, rest, id);
        forall t | t in rest
          ensures id !in Ids(l.pool.Queue(t))
        {
          OtherQueuesDiffer(l, s, t);
        }
      }
    }
  }

  function ActiveIds(active: map<nat, Job>): set<nat> {
    set w | w in active :: active[w].id
  }

  lemma {:induction false} ActiveIsCounted(active: map<nat, Job>)
    requires forall v, w :: v in active && w in active && v != w ==> active[v].id != active[w].id
    ensures |ActiveIds(active)| == |active|
    decreases |active|
  {
    if active == map[] {
    } else {
      var w :| w in active;
      var rest := active - {w};
      assert rest.Keys == active.Keys - {w};
      ActiveIsCounted(rest);
      forall id
        ensures id in ActiveIds(active) <==> id in ActiveIds(rest) || id == active[w].id
      {
        if id in ActiveIds(active) && id != active[w].id {
          var v :| v in active && active[v].id == id;
          assert v in rest && rest[v].id == id;
        }
      }
      assert ActiveIds(active) == ActiveIds(rest) + {active[w].id};
    }
  }

  lemma ActiveIdsDiffer(l: Ledger, v: nat, w: nat)
    requires Accounted(l) && v in l.pool.active && w in l.pool.active && v != w
    ensures l.pool.active[v].id != l.pool.active[w].id
  {
    var a, b := l.pool.active[v], l.pool.active[w];
    assert Active(l, a) && Active(l, b);
    if a.id == b.id {
      SameId(l.accepted, a, b);
    }
  }

  /** A job is outstanding exactly when it is queued or active. */
  lemma OutstandingId(l: Ledger, id: nat)
    requires Accounted(l)
    ensures id in Outstanding(l) <==> id in IdsOf(l.pool, l.pool.order) || id in ActiveIds(l.pool.active)
    ensures !(id in IdsOf(l.pool, l.pool.order) && id in ActiveIds(l.pool.active))
  {
    IdsOfMember(l.pool, l.pool.order, id);
    if id in Outstanding(l) {
      var job :| job in l.accepted && job.id == id;
      Conservation(l, job);
      if Active(l, job) {
        var w :| w in l.pool.active && l.pool.active[w] == job;
        assert id in ActiveIds(l.pool.active);
      } else {
        assert job in l.pool.Queue(job.session) && job.session in l.pool.order;
      }
    }
    if id in IdsOf(l.pool, l.pool.order) {
      var s :| s in l.pool.order && id in Ids(l.pool.Queue(s));
      var job :| job in l.pool.Queue(s) && job.id == id;
      QueuedIsAccepted(l, s, job);
      QueuedIsNotDispatched(l, s, job);
    }
    if id in ActiveIds(l.pool.active) {
      var w :| w in l.pool.active && l.pool.active[w].id == id;
      assert Active(l, l.pool.active[w]);
      assert id in Ids(l.dispatched);
      ActiveNotFinished(l, l.pool.active[w]);
    }
  }

  lemma ActiveNotFinished(l: Ledger, job: Job)
    requires Accounted(l) && Active(l, job)
    ensures job in l.accepted && job.id !in l.removed && job.id !in l.finished
  {
    assert job in l.dispatched;
  }

  /** Queued and active jobs together are the outstanding ones. */
  lemma OutstandingIsCounted(l: Ledger)
    requires Accounted(l)
    ensures |Outstanding(l)| == l.pool.Queued(l.pool.order) + |l.pool.active|
  {
    forall id
      ensures id in Outstanding(l) <==> id in IdsOf(l.pool, l.pool.order) || id in ActiveIds(l.pool.active)
      ensures !(id in IdsOf(l.pool, l.pool.order) && id in ActiveIds(l.pool.active))
    {
      OutstandingId(l, id);
    }
    assert Outstanding(l) == IdsOf(l.pool, l.pool.order) + ActiveIds(l.pool.active);
    QueuedIsCounted(l, l.pool.order);
    forall v, w | v in l.pool.active && w in l.pool.active && v != w
      ensures l.pool.active[v].id != l.pool.active[w].id
    {
      ActiveIdsDiffer(l, v, w);
    }
    ActiveIsCounted(l.pool.active);
  }

  /** The jobs outstanding never exceed the bound, and a job is taken exactly when there is room. */
  lemma BoundHolds(l: Ledger, job: Job)
    requires Accounted(l)
    ensures |Outstanding(l)| <= l.pool.maxJobs
    ensures HasRoom(l) ==> l.pool.Submit(job).Queue(job.session) == l.pool.Queue(job.session) + [job]
    ensures !HasRoom(l) ==> l.pool.Submit(job) == l.pool
  {
    OutstandingIsCounted(l);
  }

  // ---- Steps ----

  lemma SubmitInOrder(l: Ledger, l': Ledger, job: Job)
    requires InOrder(l) && l.pool.Accepts() && job.id !in l.removed
    requires l' == l.(pool := l.pool.Submit(job), accepted := l.accepted + [job])
    ensures InOrder(l')
  {
    forall s
      ensures SessionInOrder(l', s)
    {
      assert SessionInOrder(l, s);
      OfAppend(l.accepted, job, s, l.removed);
    }
  }

  lemma SubmitAccounted(l: Ledger, job: Job)
    requires Accounted(l) && WellTimed(l, Step.Submit(job))
    ensures Accounted(Advance(l, Step.Submit(job)))
  {
    OutstandingIsCounted(l);
    var l' := Advance(l, Step.Submit(job));
    SubmitValid(l.pool, job);
    if l.pool.Accepts() {
      assert job.id !in l.removed;
      SubmitInOrder(l, l', job);
      assert forall other :: other in l.accepted ==> other.id in Ids(l.accepted);
      assert Unique(l'.accepted);
      assert Ids(l.accepted) <= Ids(l'.accepted);
      SameActive(l, l');
    }
  }

  lemma SameActive(l: Ledger, l': Ledger)
    requires l'.pool.active == l.pool.active
    ensures forall job :: Active(l', job) <==> Active(l, job)
  {
  }

  /** Ids of queued jobs leave the queues; nothing else moves. */
  lemma RemovalAccounted(l: Ledger, l': Ledger, ids: set<nat>)
    requires Accounted(l)
    requires l' == l.(pool := l'.pool, removed := l.removed + ids)
    requires l'.pool.Valid() && l'.pool.active == l.pool.active
    requires ids <= Ids(l.accepted)
    requires forall job :: job in l.dispatched ==> job.id !in ids
    requires forall s :: l'.pool.Queue(s) == Drop(l.pool.Queue(s), ids)
    ensures Accounted(l')
  {
    forall s
      ensures SessionInOrder(l', s)
    {
      assert SessionInOrder(l, s);
      OfMore(l.accepted, s, l.removed, ids);
      DropConcat(Of(l.dispatched, s, {}), l.pool.Queue(s), ids);
      forall job | job in Of(l.dispatched, s, {})
        ensures job.id !in ids
      {
        OfMember(l.dispatched, s, {}, job);
      }
      DropNone(Of(l.dispatched, s, {}), ids);
    }
    SameActive(l, l');
  }

  lemma CancelAccounted(l: Ledger, session: nat, token: nat)
    requires Accounted(l)
    ensures Accounted(Advance(l, Step.CancelGeneration(session, token)))
  {
    var step := Step.CancelGeneration(session, token);
    var l' := Advance(l, step);
    var ids := Cancelled(l.pool, session, token);
    StepKeepsValid(l.pool, step);
    forall job | job in l.pool.Queue(session)
      ensures job.id in Ids(l.accepted) && (job.id in ids <==> job.token == token)
    {
      QueuedIsAccepted(l, session, job);
      if job.id in ids {
        var other :| other in l.pool.Queue(session) && other.token == token && other.id == job.id;
        QueuedIsAccepted(l, session, other);
        SameId(l.accepted, other, job);
      }
    }
    forall s
      ensures l'.pool.Queue(s) == Drop(l.pool.Queue(s), ids)
    {
      if s == session {
        DropRetains(l.pool.Queue(s), token, ids);
      } else {
        forall job | job in l.pool.Queue(s)
          ensures job.id !in ids
        {
          QueuedIsAccepted(l, s, job);
          if job.id in ids {
            var other :| other in l.pool.Queue(session) && other.id == job.id;
            QueuedIsAccepted(l, session, other);
            SameId(l.accepted, other, job);
          }
        }
        DropNone(l.pool.Queue(s), ids);
      }
    }
    forall job | job in l.dispatched
      ensures job.id !in ids
    {
      forall other | other in l.pool.Queue(session)
        ensures other.id != job.id
      {
        QueuedIsNotDispatched(l, session, other);
        assert job.id in Ids(l.dispatched);
      }
    }
    RemovalAccounted(l, l', ids);
  }

  function QueuedIds(p: Pool): set<nat> {
    set s, job | s in p.queues && job in p.queues[s] :: job.id
  }

  lemma AllQueuedRemoved(l: Ledger)
    requires Accounted(l)
    ensures forall s :: Drop(l.pool.Queue(s), QueuedIds(l.pool)) == []
    ensures QueuedIds(l.pool) <= Ids(l.accepted)
    ensures forall job :: job in l.dispatched ==> job.id !in QueuedIds(l.pool)
  {
    forall s
      ensures Drop(l.pool.Queue(s), QueuedIds(l.pool)) == []
    {
      DropAll(l.pool.Queue(s), QueuedIds(l.pool));
    }
    forall id | id in QueuedIds(l.pool)
      ensures id in Ids(l.accepted) && id !in Ids(l.dispatched)
    {
      var s, job :| s in l.pool.queues && job in l.pool.queues[s] && job.id == id;
      QueuedIsAccepted(l, s, job);
      QueuedIsNotDispatched(l, s, job);
    }
    assert forall job :: job in l.dispatched ==> job.id in Ids(l.dispatched);
  }

  lemma CloseAccounted(l: Ledger)
    requires Accounted(l)
    ensures Accounted(Advance(l, Step.Close))
  {
    if !l.pool.closed {
      CloseValid(l.pool);
      AllQueuedRemoved(l);
      RemovalAccounted(l, l.(pool := l.pool.Close(), removed := l.removed + QueuedIds(l.pool)), QueuedIds(l.pool));
    }
  }

  lemma HeadDispatched(l: Ledger, l': Ledger, s: nat, job: Job)
    requires InOrder(l) && l'.accepted == l.accepted && l'.removed == l.removed
    requires l'.dispatched == l.dispatched + [job] && job.session == s
    requires l.pool.Queue(s) == [job] + l'.pool.Queue(s)
    requires forall t :: t != s ==> l'.pool.Queue(t) == l.pool.Queue(t)
    ensures InOrder(l')
  {
    forall t
      ensures SessionInOrder(l', t)
    {
      assert SessionInOrder(l, t);
      OfAppend(l.dispatched, job, t, {});
    }
  }

  lemma DispatchTakesHead(p: Pool, worker: nat)
    requires p.Sorted() && p.Pick() < |p.order|
    ensures var s, p' := p.order[p.Pick()], p.Dispatch(worker);
            && p.Queue(s) != [] && p.Queue(s)[0] == p.NextJob().1
            && p.Queue(s)[0].session == s
            && p.Queue(s) == [p.Queue(s)[0]] + p'.Queue(s)
            && (forall t :: t != s ==> p'.Queue(t) == p.Queue(t))
            && p'.active == p.active[worker := p.Queue(s)[0]]
  {
    var s := p.order[p.Pick()];
    assert p.Queue(s) == [p.Queue(s)[0]] + p.Queue(s)[1..];
  }

  lemma ActiveGrows(l: Ledger, l': Ledger, worker: nat, job: Job)
    requires worker !in l.pool.active && l'.pool.active == l.pool.active[worker := job]
    ensures forall other :: Active(l', other) <==> Active(l, other) || other == job
  {
    forall other
      ensures Active(l', other) <==> Active(l, other) || other == job
    {
      if other == job {
        assert l'.pool.active[worker] == job;
      } else if Active(l, other) {
        var w :| w in l.pool.active && l.pool.active[w] == other;
        assert w in l'.pool.active && l'.pool.active[w] == other;
      }
    }
  }

  /** A queued job becomes an active one. */
  lemma JobActivated(l: Ledger, l': Ledger, worker: nat, job: Job)
    requires Accounted(l) && l'.pool.Valid() && InOrder(l')
    requires l' == l.(pool := l'.pool, dispatched := l.dispatched + [job])
    requires worker !in l.pool.active && l'.pool.active == l.pool.active[worker := job]
    requires job in l.pool.Queue(job.session)
    ensures Accounted(l')
  {
    QueuedIsAccepted(l, job.session, job);
    QueuedIsNotDispatched(l, job.session, job);
    assert forall other :: other in l.dispatched ==> other.id in Ids(l.dispatched);
    assert Unique(l'.dispatched);
    assert Ids(l.dispatched) <= Ids(l'.dispatched);
    ActiveGrows(l, l', worker, job);
  }

  lemma DispatchAccounted(l: Ledger, worker: nat)
    requires Accounted(l) && Enabled(l.pool, Step.Dispatch(worker))
    ensures Accounted(Advance(l, Step.Dispatch(worker)))
  {
    var l' := Advance(l, Step.Dispatch(worker));
    var s := l.pool.order[l.pool.Pick()];
    var job := l.pool.Queue(s)[0];
    DispatchValid(l.pool, worker);
    DispatchTakesHead(l.pool, worker);
    HeadDispatched(l, l', s, job);
    JobActivated(l, l', worker, job);
  }

  lemma ActiveShrinks(l: Ledger, l': Ledger, worker: nat)
    requires l.pool.Valid() && worker in l.pool.active && l'.pool.active == l.pool.active - {worker}
    ensures forall other :: Active(l', other) <==> Active(l, other) && other != l.pool.active[worker]
  {
    forall other
      ensures Active(l', other) <==> Active(l, other) && other != l.pool.active[worker]
    {
      if Active(l, other) && other != l.pool.active[worker] {
        var w :| w in l.pool.active && l.pool.active[w] == other;
        assert w in l'.pool.active && l'.pool.active[w] == other;
      }
    }
  }

  /** An active job becomes a finished one. */
  lemma JobFinished(l: Ledger, l': Ledger, worker: nat)
    requires Accounted(l) && l'.pool.Valid() && worker in l.pool.active
    requires l' == l.(pool := l'.pool, finished := l.finished + {l.pool.active[worker].id})
    requires l'.pool.active == l.pool.active - {worker}
    requires forall s :: l'.pool.Queue(s) == l.pool.Queue(s)
    ensures Accounted(l')
  {
    var job := l.pool.active[worker];
    assert Active(l, job);
    forall s
      ensures SessionInOrder(l', s)
    {
      assert SessionInOrder(l, s);
    }
    ActiveShrinks(l, l', worker);
    forall other | other in l.dispatched
      ensures other.id in l'.finished <==> !Active(l', other)
    {
      if other.id == job.id {
        SameId(l.dispatched, other, job);
      }
    }
    assert job.id in Ids(l.dispatched);
  }

  lemma CompleteAccounted(l: Ledger, worker: nat)
    requires Accounted(l) && worker in l.pool.active
    ensures Accounted(Advance(l, Step.Complete(worker)))
  {
    CompleteValid(l.pool, worker);
    JobFinished(l, Advance(l, Step.Complete(worker)), worker);
  }

  function Opening(workers: nat, maxJobs: nat): Ledger {
    Ledger(Initial(workers, maxJobs), [], [], {}, {})
  }

  predicate Possible(l: Ledger, steps: seq<Step>)
    decreases |steps|
  {
    steps != [] ==> WellTimed(l, steps[0]) && Possible(Advance(l, steps[0]), steps[1..])
  }

  function Execute(l: Ledger, steps: seq<Step>): Ledger
    requires Possible(l, steps)
    decreases |steps|
  {
    if steps == [] then l else Execute(Advance(l, steps[0]), steps[1..])
  }

  lemma {:induction false} RunAccounted(l: Ledger, steps: seq<Step>)
    requires Accounted(l) && Possible(l, steps)
    ensures Accounted(Execute(l, steps))
    decreases |steps|
  {
    if steps == [] {
    } else {
      match steps[0] {
        case Submit(job) => SubmitAccounted(l, job);
        case CancelGeneration(session, token) => CancelAccounted(l, session, token);
        case Dispatch(worker) => DispatchAccounted(l, worker);
        case Complete(worker) => CompleteAccounted(l, worker);
        case Close => CloseAccounted(l);
      }
      RunAccounted(Advance(l, steps[0]), steps[1..]);
    }
  }

  /** In every run the accepted jobs that are neither cancelled nor completed stay within the bound. */
  lemma EveryRunIsBounded(workers: nat, maxJobs: nat, steps: seq<Step>)
    requires Possible(Opening(workers, maxJobs), steps)
    ensures |Outstanding(Execute(Opening(workers, maxJobs), steps))| <= maxJobs
  {
    EveryRunIsAccounted(workers, maxJobs, steps);
    OutstandingIsCounted(Execute(Opening(workers, maxJobs), steps));
    BoundStays(Opening(workers, maxJobs), steps);
  }

  lemma {:induction false} BoundStays(l: Ledger, steps: seq<Step>)
    requires Possible(l, steps)
    ensures Execute(l, steps).pool.maxJobs == l.pool.maxJobs
    decreases |steps|
  {
    if steps == [] {
    } else {
      BoundStays(Advance(l, steps[0]), steps[1..]);
    }
  }

  /** In every run of the pool no accepted job is lost, duplicated or reordered. */
  lemma EveryRunIsAccounted(workers: nat, maxJobs: nat, steps: seq<Step>)
    requires Possible(Opening(workers, maxJobs), steps)
    ensures Accounted(Execute(Opening(workers, maxJobs), steps))
  {
    InitialValid(workers, maxJobs);
    RunAccounted(Opening(workers, maxJobs), steps);
  }
}
