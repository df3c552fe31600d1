/**
 Bounded bypass of the TTS rotation.

 While a session waits idle with a final response at the head of its queue, every
 session served before it was ahead of it in the rotation, and none is served twice.
 */
module TtsFairness {
  import opened Options
  import opened TtsPool

  /** The session is idle and offers a final response. */
  predicate Waiting(p: Pool, session: nat) {
    p.Offers(session, FinalResponse)
  }

  /** The place of a session in the rotation. */
  function Place(order: seq<nat>, session: nat): (i: nat)
    ensures i <= |order| && (i < |order| ==> order[i] == session)
    ensures forall k :: 0 <= k < i ==> order[k] != session
  {
    if order == [] || order[0] == session then 0 else 1 + Place(order[1..], session)
  }

  /** The sessions in front of the given one. */
  function Ahead(p: Pool, session: nat): seq<nat> {
    p.order[..Place(p.order, session)]
  }

  predicate Serves(p: Pool, step: Step, session: nat) {
    step.Dispatch? && p.Pick() < |p.order| && p.order[p.Pick()] == session
  }

  /** In every state of the run up to its last step the session waits and is passed over. */
  predicate KeptWaiting(p: Pool, steps: seq<Step>, session: nat)
    decreases |steps|
  {
    && Waiting(p, session)
    && (steps != [] ==>
          && Enabled(p, steps[0]) && !Serves(p, steps[0], session)
          && KeptWaiting(Apply(p, steps[0]), steps[1..], session))
  }

  /** The sessions served in a run, in order. */
  function Served(p: Pool, steps: seq<Step>, session: nat): seq<nat>
    requires KeptWaiting(p, steps, session)
    decreases |steps|
  {
    if steps == [] then []
    else
      (if steps[0].Dispatch? then [p.order[p.Pick()]] else [])
      + Served(Apply(p, steps[0]), steps[1..], session)
  }

  lemma WaitingIsListed(p: Pool, session: nat)
    requires p.Valid() && Waiting(p, session)
    ensures Place(p.order, session) < |p.order|
    ensures p.Pick() <= Place(p.order, session)
  {
    assert session in p.order;
    assert p.Offers(p.order[Place(p.order, session)], FinalResponse);
  }

  lemma {:induction false} WithoutPlace(order: seq<nat>, other: nat, session: nat)
    requires session in order && other != session
    ensures var rest := Without(order, other);
            && Place(rest, session) <= Place(order, session)
            && (forall s :: s in rest[..Place(rest, session)] ==> s in order[..Place(order, session)])
    decreases |order|
  {
    var front, last := order[..|order| - 1], order[|order| - 1];
    assert order == front + [last];
    if session in front {
      WithoutPlace(front, other, session);
      WithoutKeeps(front, other, session);
      PlacePrefix(front, last, session);
      if last != other {
        PlacePrefix(Without(front, other), last, session);
      }
      var rest := Without(order, other);
      assert rest[..Place(rest, session)] == Without(front, other)[..Place(Without(front, other), session)];
      assert order[..Place(order, session)] == front[..Place(front, session)];
    } else {
      WithoutKeeps(front, other, session);
      PlaceLast(front, session);
      PlaceLast(Without(front, other), session);
      WithoutShorter(front, other);
      assert order[..|front|] == front;
    }
  }

  lemma {:induction false} WithoutKeeps(order: seq<nat>, other: nat, session: nat)
    requires other != session
    ensures session in Without(order, other) <==> session in order
  {
    if order == [] {
    } else {
      WithoutKeeps(order[..|order| - 1], other, session);
      assert order == order[..|order| - 1] + [order[|order| - 1]];
    }
  }

  lemma {:induction false} WithoutShorter(order: seq<nat>, other: nat)
    ensures |Without(order, other)| <= |order|
    ensures forall s :: s in Without(order, other) ==> s in order
  {
    if order == [] {
    } else {
      WithoutShorter(order[..|order| - 1], other);
      assert order == order[..|order| - 1] + [order[|order| - 1]];
    }
  }

  lemma {:induction false} PlacePrefix(front: seq<nat>, last: nat, session: nat)
    requires session in front
    ensures Place(front + [last], session) == Place(front, session)
  {
    if front[0] != session {
      assert (front + [last])[1..] == front[1..] + [last];
      PlacePrefix(front[1..], last, session);
    }
  }

  lemma {:induction false} PlaceLast(front: seq<nat>, session: nat)
    requires session !in front
    ensures Place(front + [session], session) == |front|
  {
    if front == [] {
    } else {
      assert (front + [session])[1..] == front[1..] + [session];
      PlaceLast(front[1..], session);
    }
  }

  /** The session stands at least as far forward, behind no newcomer. */
  predicate NotBehind(p: Pool, p': Pool, session: nat) {
    && Place(p'.order, session) <= Place(p.order, session)
    && (forall s :: s in Ahead(p', session) ==> s in Ahead(p, session))
  }

  lemma RotatedPlace(order: seq<nat>, i: nat, session: nat)
    requires Distinct(order) && i < Place(order, session) < |order|
    ensures var place, rotated := Place(order, session), Rotated(order, i + 1);
            && Place(rotated, session) == place - i - 1
            && rotated[..place - i - 1] == order[i + 1..place]
            && order[i] in order[..place] && order[i] !in rotated[..place - i - 1]
  {
    var place, rotated := Place(order, session), Rotated(order, i + 1);
    assert rotated[place - i - 1] == session;
    assert forall k :: 0 <= k < place - i - 1 ==> rotated[k] == order[i + 1 + k];
    assert order[..place][i] == order[i];
  }

  lemma DispatchAhead(p: Pool, worker: nat, session: nat)
    requires p.Valid() && Enabled(p, Step.Dispatch(worker)) && !Serves(p, Step.Dispatch(worker), session)
    requires Waiting(p, session)
    ensures var p', t := p.Dispatch(worker), p.order[p.Pick()];
            && NotBehind(p, p', session)
            && Place(p'.order, session) < Place(p.order, session)
            && t in Ahead(p, session) && t !in Ahead(p', session)
  {
    WaitingIsListed(p, session);
    RotatedPlace(p.order, p.Pick(), session);
    assert p.Dispatch(worker).order == Rotated(p.order, p.Pick() + 1);
    var place := Place(p.order, session);
    forall s | s in p.order[p.Pick() + 1..place]
      ensures s in p.order[..place]
    {
    }
  }

  lemma DropAhead(p: Pool, p': Pool, other: nat, session: nat)
    requires p.Listed() && session in p.order && p'.order == Without(p.order, other) && session in p'.order
    ensures NotBehind(p, p', session)
  {
    WithoutFacts(p.order, other);
    WithoutPlace(p.order, other, session);
  }

  lemma SubmitAhead(p: Pool, job: Job, session: nat)
    requires session in p.order
    ensures NotBehind(p, p.Submit(job), session)
  {
    if p.Submit(job).order != p.order {
      PlacePrefix(p.order, job.session, session);
      assert Ahead(p.Submit(job), session) == Ahead(p, session);
    }
  }

  lemma CancelAhead(p: Pool, other: nat, token: nat, session: nat)
    requires p.Listed() && session in p.order && session in p.CancelGeneration(other, token).order
    ensures NotBehind(p, p.CancelGeneration(other, token), session)
  {
    if p.CancelGeneration(other, token).order != p.order {
      DropAhead(p, p.CancelGeneration(other, token), other, session);
    }
  }

  lemma CompleteAhead(p: Pool, worker: nat, session: nat)
    requires p.Listed() && worker in p.active && session in p.order && session in p.Complete(worker).order
    ensures NotBehind(p, p.Complete(worker), session)
  {
    if p.Complete(worker).order != p.order {
      DropAhead(p, p.Complete(worker), p.active[worker].session, session);
    }
  }

  /** No step moves a waiting session backwards, and a dispatch that passes it moves it forwards. */
  lemma AheadShrinks(p: Pool, step: Step, session: nat)
    requires p.Valid() && Enabled(p, step) && !Serves(p, step, session)
    requires Waiting(p, session) && Waiting(Apply(p, step), session)
    ensures NotBehind(p, Apply(p, step), session)
    ensures step.Dispatch? ==>
              var p', t := Apply(p, step), p.order[p.Pick()];
              && Place(p'.order, session) < Place(p.order, session)
              && t in Ahead(p, session) && t !in Ahead(p', session)
  {
    StepKeepsValid(p, step);
    assert session in p.order && session in Apply(p, step).order;
    match step
    case Submit(job) => SubmitAhead(p, job, session);
    case CancelGeneration(other, token) => CancelAhead(p, other, token, session);
    case Dispatch(worker) => DispatchAhead(p, worker, session);
    case Complete(worker) => CompleteAhead(p, worker, session);
    case Close =>
  }

  /**
   Over every run: the sessions served while this one waits are distinct, were all ahead
   of it at the start, and are at most as many as its place in the rotation.
   */
  lemma {:induction false} BoundedBypass(p: Pool, steps: seq<Step>, session: nat)
    requires p.Valid() && KeptWaiting(p, steps, session)
    ensures Distinct(Served(p, steps, session))
    ensures forall s :: s in Served(p, steps, session) ==> s in Ahead(p, session)
    ensures |Served(p, steps, session)| <= Place(p.order, session)
    decreases |steps|
  {
    if steps == [] {
    } else {
      AheadShrinks(p, steps[0], session);
      StepKeepsValid(p, steps[0]);
      BoundedBypass(Apply(p, steps[0]), steps[1..], session);
    }
  }

  function Dispatches(steps: seq<Step>): nat {
    if steps == [] then 0 else (if steps[0].Dispatch? then 1 else 0) + Dispatches(steps[1..])
  }

  lemma {:induction false} ServedCounts(p: Pool, steps: seq<Step>, session: nat)
    requires KeptWaiting(p, steps, session)
    ensures |Served(p, steps, session)| == Dispatches(steps)
    decreases |steps|
  {
    if steps == [] {
    } else {
      ServedCounts(Apply(p, steps[0]), steps[1..], session);
    }
  }

  /** Hence a waiting final response is dispatched within place + 1 dispatches. */
  lemma ServedWithinPlace(p: Pool, steps: seq<Step>, session: nat)
    requires p.Valid() && KeptWaiting(p, steps, session)
    ensures Dispatches(steps) <= Place(p.order, session)
  {
    BoundedBypass(p, steps, session);
    ServedCounts(p, steps, session);
  }
}
