/**
 The round-robin choice of the turn and transcription schedulers (schedulers/turn.py,
 `_next_job`; schedulers/stt.py, `_next_session`). Session ids are numbers in their order.

 `EachOnce`: while the set of backlogged sessions stays the same, as many choices in a
 row as there are sessions serve each of them exactly once.
 */
module RoundRobin {
  import opened Options

  predicate IsLeast(s: set<nat>, m: nat) {
    m in s && forall k :: k in s ==> m <= k
  }

  lemma {:induction false} LeastExists(s: set<nat>) returns (m: nat)
    requires s != {}
    ensures IsLeast(s, m)
    decreases s
  {
    m :| m in s;
    var rest := s - {m};
    if rest != {} {
      var other := LeastExists(rest);
      if other < m {
        m := other;
      }
      assert forall k :: k in s ==> k in rest || k == m || k > m;
    } else {
      assert s == {m};
    }
  }

  lemma LeastExistsFor(s: set<nat>)
    requires s != {}
    ensures exists m :: m in s && IsLeast(s, m)
  {
    var m := LeastExists(s);
  }

  function Smallest(s: set<nat>): (m: nat)
    requires s != {}
    ensures IsLeast(s, m)
  {
    LeastExistsFor(s);
    var m :| m in s && IsLeast(s, m);
    m
  }

  /** Python's `sorted` on a set of ids. */
  function Sorted(s: set<nat>): seq<nat> {
    if s == {} then [] else [Smallest(s)] + Sorted(s - {Smallest(s)})
  }

  predicate Rising(r: seq<nat>) {
    forall i, j :: 0 <= i < j < |r| ==> r[i] < r[j]
  }

  lemma SmallerFirst(m: nat, rest: set<nat>, tail: seq<nat>)
    requires Rising(tail) && (forall x :: x in tail <==> x in rest) && forall x :: x in rest ==> m < x
    ensures Rising([m] + tail) && forall x :: x in [m] + tail <==> x in rest + {m}
  {
    assert forall j :: 0 <= j < |tail| ==> tail[j] in rest;
  }

  lemma {:induction false} SortedIsSorted(s: set<nat>)
    ensures Rising(Sorted(s)) && |Sorted(s)| == |s| && forall x :: x in Sorted(s) <==> x in s
    decreases s
  {
    if s == {} {
    } else {
      var m := Smallest(s);
      SortedIsSorted(s - {m});
      SmallerFirst(m, s - {m}, Sorted(s - {m}));
      assert s - {m} + {m} == s;
    }
  }

  function IndexOf(r: seq<nat>, x: nat): (i: nat)
    requires x in r
    ensures i < |r| && r[i] == x
  {
    if r[0] == x then 0 else 1 + IndexOf(r[1..], x)
  }

  /** The place of the next choice among the sorted sessions. */
  function Place(r: seq<nat>, last: Option<nat>): (i: nat)
    requires r != []
    ensures i < |r|
  {
    if last.Some? && last.value in r then (IndexOf(r, last.value) + 1) % |r| else 0
  }

  function NextOf(r: seq<nat>, last: Option<nat>): nat
    requires r != []
  {
    r[Place(r, last)]
  }

  function NextSession(s: set<nat>, last: Option<nat>): (x: nat)
    requires s != {}
    ensures x in s
  {
    SortedIsSorted(s);
    assert |Sorted(s)| > 0;
    var x := NextOf(Sorted(s), last);
    assert x in Sorted(s);
    x
  }

  lemma Wraps(i: nat, n: nat)
    requires 0 < n && i <= n
    ensures i % n == if i == n then 0 else i
  {
  }

  /** The choice is the next larger id; without one, or when the last choice is gone, the smallest. */
  lemma NextInOrder(r: seq<nat>, last: Option<nat>)
    requires r != [] && Rising(r)
    ensures var x := NextOf(r, last);
            if last.Some? && last.value in r && last.value < r[|r| - 1]
            then x > last.value && forall k :: k in r && k > last.value ==> x <= k
            else forall k :: k in r ==> x <= k
  {
    if last.Some? && last.value in r {
      Wraps(IndexOf(r, last.value) + 1, |r|);
    }
  }

  /** The choices made in a row among the same sessions. */
  function Picks(r: seq<nat>, last: Option<nat>, n: nat): (picks: seq<nat>)
    requires r != []
    ensures |picks| == n
    decreases n
  {
    if n == 0 then [] else [NextOf(r, last)] + Picks(r, Some(NextOf(r, last)), n - 1)
  }

  lemma PicksFirst(r: seq<nat>, last: Option<nat>, n: nat)
    requires r != []
    ensures Picks(r, last, n + 1) == [NextOf(r, last)] + Picks(r, Some(NextOf(r, last)), n)
  {
  }

  /** Position `i + k` on a ring of n places. */
  function Around(i: nat, k: nat, n: nat): (j: nat)
    requires i < n && k <= n
    ensures j < n
  {
    if i + k < n then i + k else i + k - n
  }

  lemma NextPlace(r: seq<nat>, i: nat)
    requires Rising(r) && i < |r|
    ensures Place(r, Some(r[i])) == Around(i, 1, |r|)
  {
    assert r[i] in r;
    assert IndexOf(r, r[i]) == i;
    Wraps(i + 1, |r|);
  }

  lemma {:induction false} PicksGoAround(r: seq<nat>, last: Option<nat>, n: nat, k: nat)
    requires r != [] && Rising(r) && k < n <= |r|
    ensures Picks(r, last, n)[k] == r[Around(Place(r, last), k, |r|)]
    decreases k
  {
    if k == 0 {
    } else {
      var i := Place(r, last);
      NextPlace(r, i);
      PicksGoAround(r, Some(r[i]), n - 1, k - 1);
      assert Around(Around(i, 1, |r|), k - 1, |r|) == Around(i, k, |r|);
    }
  }

  /** A full round serves every backlogged session, and none twice. */
  lemma EachOnce(r: seq<nat>, last: Option<nat>)
    requires r != [] && Rising(r)
    ensures var picks := Picks(r, last, |r|);
            && (forall j :: 0 <= j < |r| ==> r[j] in picks)
            && (forall k, m :: 0 <= k < m < |picks| ==> picks[k] != picks[m])
  {
    var n, picks, i := |r|, Picks(r, last, |r|), Place(r, last);
    forall k | 0 <= k < n
      ensures picks[k] == r[Around(i, k, n)]
    {
      PicksGoAround(r, last, n, k);
    }
    forall j | 0 <= j < n
      ensures r[j] in picks
    {
      var k := if j >= i then j - i else j + n - i;
      assert picks[k] == r[Around(i, k, n)];
    }
    forall k, m | 0 <= k < m < n
      ensures picks[k] != picks[m]
    {
      assert picks[k] == r[Around(i, k, n)] && picks[m] == r[Around(i, m, n)];
    }
  }

  // ---- Queues by session ----

  datatype Job = Job(id: nat, session: nat)

  type Queues = map<nat, seq<Job>>

  function Waiting(q: Queues, session: nat): seq<Job> {
    if session in q then q[session] else []
  }

  function Push(q: Queues, job: Job): Queues {
    q[job.session := Waiting(q, job.session) + [job]]
  }

  /** Keeps no empty queue. */
  function Put(q: Queues, session: nat, jobs: seq<Job>): Queues {
    if jobs == [] then q - {session} else q[session := jobs]
  }

  function Pop(q: Queues, session: nat): Queues
    requires session in q && q[session] != []
  {
    Put(q, session, q[session][1..])
  }

  function Without(jobs: seq<Job>, id: nat): seq<Job> {
    if jobs == [] then [] else if jobs[0].id == id then jobs[1..] else [jobs[0]] + Without(jobs[1..], id)
  }

  function Total(q: Queues): nat
    decreases |q|
  {
    if q == map[] then 0
    else
      var k := Smallest(q.Keys);
      assert (q - {k}).Keys == q.Keys - {k};
      |q[k]| + Total(q - {k})
  }

  /** No queue is empty, and each job waits in the queue of its session. */
  predicate Filed(q: Queues) {
    forall k :: k in q ==> q[k] != [] && forall i :: 0 <= i < |q[k]| ==> q[k][i].session == k
  }

  lemma {:induction false} TotalSplits(q: Queues, k: nat)
    requires k in q
    ensures Total(q) == |q[k]| + Total(q - {k})
    decreases |q|
  {
    var m := Smallest(q.Keys);
    assert (q - {m}).Keys == q.Keys - {m};
    if m != k {
      TotalSplits(q - {m}, k);
      assert (q - {k}).Keys == q.Keys - {k};
      SmallestStays(q.Keys, m, k);
      assert q - {m} - {k} == q - {k} - {m};
    }
  }

  lemma SmallestStays(s: set<nat>, m: nat, k: nat)
    requires s != {} && m == Smallest(s) && k != m
    ensures s - {k} != {} && Smallest(s - {k}) == m
  {
    assert m in s - {k};
  }

  lemma TotalPut(q: Queues, k: nat, jobs: seq<Job>)
    ensures Total(Put(q, k, jobs)) == Total(q) - |Waiting(q, k)| + |jobs|
  {
    if k in q {
      TotalSplits(q, k);
    } else {
      assert q - {k} == q;
    }
    if jobs != [] {
      TotalSplits(q[k := jobs], k);
      assert q[k := jobs] - {k} == q - {k};
    }
  }

  lemma {:induction false} WithoutShortens(jobs: seq<Job>, id: nat)
    ensures |Without(jobs, id)| <= |jobs| && forall x :: x in Without(jobs, id) ==> x in jobs
    decreases |jobs|
  {
    if jobs == [] {
    } else {
      WithoutShortens(jobs[1..], id);
    }
  }

  lemma FiledPut(q: Queues, k: nat, jobs: seq<Job>)
    requires Filed(q) && forall i :: 0 <= i < |jobs| ==> jobs[i].session == k
    ensures Filed(Put(q, k, jobs))
  {
  }
}
