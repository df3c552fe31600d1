/**
 Sessions and the slots they hold (sessions.py, `SessionRegistry`), as steps.

 One step is the work of one task between two points where it may wait for a lock or for
 the pipeline to drain; steps of any sessions interleave in any order. Session ids are
 unique in the source and are numbers here. Main results: `SlotsAreExclusive`,
 `SlotReleasedOnce`, `OldReleaseSparesOthers`, `StuckForGood`, `AskedIsReleased`, `DrainDecides`
 and `ClaimsWithoutReleases`.
 */
module Sessions {
  import opened Options
  import opened Capacity

  datatype Lifecycle = Living | Drain | Hung | Closed

  /** How far the creation of a session and its one release task have come. */
  datatype Phase =
    | Claimed               // holds a slot, not yet known to the registry
    | Refused               // its detector could not be made; the slot went back
    | Running
    | Requested             // the release task exists
    | Marked                // lifecycle is draining
    | Waiting               // the slot is draining, the pipeline drains
    | Drained(ok: bool)
    | Freed(ok: bool)       // the slot was given back, or is stuck
    | Leaving(ok: bool)
    | Gone(ok: bool)        // the release task is forgotten

  datatype Session = Session(slot: nat, life: Lifecycle, phase: Phase)

  datatype Registry = Registry(pool: Pool, sessions: seq<Session>, releases: set<nat>) {
    function With(s: nat, session: Session): Registry
      requires s < |sessions|
    {
      this.(sessions := sessions[s := session])
    }

    function Create(): Registry {
      var slot := pool.Next();
      if slot.None? then this
      else this.(pool := pool.Claim(|sessions|), sessions := sessions + [Session(slot.value, Living, Claimed)])
    }

    function Refuse(s: nat): Registry
      requires s < |sessions| && sessions[s].slot < |pool.slots|
    {
      With(s, sessions[s].(phase := Refused)).(pool := pool.CompleteRelease(sessions[s].slot, true))
    }

    function Register(s: nat): Registry
      requires s < |sessions|
    {
      With(s, sessions[s].(phase := Running))
    }

    function Release(s: nat): Registry
      requires s < |sessions|
    {
      if sessions[s].life.Closed? || sessions[s].life.Hung? || s in releases then this
      else With(s, sessions[s].(phase := Requested)).(releases := releases + {s})
    }

    function Mark(s: nat): Registry
      requires s < |sessions|
    {
      With(s, sessions[s].(life := Drain, phase := Marked))
    }

    function BeginDrain(s: nat): Registry
      requires s < |sessions| && sessions[s].slot < |pool.slots|
    {
      With(s, sessions[s].(phase := Waiting)).(pool := pool.BeginRelease(sessions[s].slot))
    }

    function EndDrain(s: nat, ok: bool): Registry
      requires s < |sessions|
    {
      With(s, sessions[s].(life := if ok then sessions[s].life else Hung, phase := Drained(ok)))
    }

    function Free(s: nat): Registry
      requires s < |sessions| && sessions[s].phase.Drained? && sessions[s].slot < |pool.slots|
    {
      var ok := sessions[s].phase.ok;
      With(s, sessions[s].(phase := Freed(ok))).(pool := pool.CompleteRelease(sessions[s].slot, ok))
    }

    function Close(s: nat): Registry
      requires s < |sessions| && sessions[s].phase.Freed?
    {
      var ok := sessions[s].phase.ok;
      With(s, sessions[s].(life := if ok then Closed else sessions[s].life, phase := Leaving(ok)))
    }

    function Forget(s: nat): Registry
      requires s < |sessions| && sessions[s].phase.Leaving?
    {
      With(s, sessions[s].(phase := Gone(sessions[s].phase.ok))).(releases := releases - {s})
    }
  }

  datatype Step =
    | NewSession
    | VadFails(s: nat)
    | Registered(s: nat)
    | AskRelease(s: nat)
    | TaskMarks(s: nat)
    | TaskBegins(s: nat)
    | PipelineDrained(s: nat, ok: bool)
    | TaskFrees(s: nat)
    | TaskCloses(s: nat)
    | TaskForgotten(s: nat)
    | ServiceDrain

  predicate At(r: Registry, s: nat, phase: Phase) {
    s < |r.sessions| && r.sessions[s].phase == phase && r.sessions[s].slot < |r.pool.slots|
  }

  /** The session was handed to its caller, which may ask for its release any number of times. */
  predicate Known(r: Registry, s: nat) {
    s < |r.sessions| && !r.sessions[s].phase.Claimed? && !r.sessions[s].phase.Refused?
  }

  predicate Enabled(r: Registry, step: Step) {
    match step
    case NewSession => true
    case VadFails(s) => At(r, s, Claimed)
    case Registered(s) => At(r, s, Claimed)
    case AskRelease(s) => Known(r, s)
    case TaskMarks(s) => At(r, s, Requested)
    case TaskBegins(s) => At(r, s, Marked)
    case PipelineDrained(s, _) => At(r, s, Waiting)
    case TaskFrees(s) => At(r, s, Drained(true)) || At(r, s, Drained(false))
    case TaskCloses(s) => At(r, s, Freed(true)) || At(r, s, Freed(false))
    case TaskForgotten(s) => At(r, s, Leaving(true)) || At(r, s, Leaving(false))
    case ServiceDrain => true
  }

  function Apply(r: Registry, step: Step): Registry
    requires Enabled(r, step)
  {
    match step
    case NewSession => r.Create()
    case VadFails(s) => r.Refuse(s)
    case Registered(s) => r.Register(s)
    case AskRelease(s) => r.Release(s)
    case TaskMarks(s) => r.Mark(s)
    case TaskBegins(s) => r.BeginDrain(s)
    case PipelineDrained(s, ok) => r.EndDrain(s, ok)
    case TaskFrees(s) => r.Free(s)
    case TaskCloses(s) => r.Close(s)
    case TaskForgotten(s) => r.Forget(s)
    case ServiceDrain => r.(pool := r.pool.BeginServiceDrain())
  }

  predicate Possible(r: Registry, steps: seq<Step>)
    decreases |steps|
  {
    steps != [] ==> Enabled(r, steps[0]) && Possible(Apply(r, steps[0]), steps[1..])
  }

  function Execute(r: Registry, steps: seq<Step>): Registry
    requires Possible(r, steps)
    decreases |steps|
  {
    if steps == [] then r else Execute(Apply(r, steps[0]), steps[1..])
  }

  // ---- The invariant ----

  /** The state of the slot that a session holds, if it still holds one. */
  function Holding(p: Phase): Option<SlotState> {
    match p
    case Claimed => Some(Active)
    case Refused => None
    case Running => Some(Active)
    case Requested => Some(Active)
    case Marked => Some(Active)
    case Waiting => Some(Draining)
    case Drained(_) => Some(Draining)
    case Freed(ok) => if ok then None else Some(Stuck)
    case Leaving(ok) => if ok then None else Some(Stuck)
    case Gone(ok) => if ok then None else Some(Stuck)
  }

  function LifeAt(p: Phase): Lifecycle {
    match p
    case Claimed => Living
    case Refused => Living
    case Running => Living
    case Requested => Living
    case Marked => Drain
    case Waiting => Drain
    case Drained(ok) => if ok then Drain else Hung
    case Freed(ok) => if ok then Drain else Hung
    case Leaving(ok) => if ok then Closed else Hung
    case Gone(ok) => if ok then Closed else Hung
  }

  predicate Releasing(p: Phase) {
    p.Requested? || p.Marked? || p.Waiting? || p.Drained? || p.Freed? || p.Leaving?
  }

  /** The slot and the release table agree with how far the session has come. */
  predicate SessionOk(r: Registry, s: nat)
    requires s < |r.sessions|
  {
    var session := r.sessions[s];
    && session.slot < |r.pool.slots|
    && session.life == LifeAt(session.phase)
    && (s in r.releases <==> Releasing(session.phase))
    && (Holding(session.phase).Some? ==>
          r.pool.slots[session.slot] == Slot(Holding(session.phase).value, Some(s)))
  }

  /** An occupied slot belongs to the session that holds it. */
  predicate SlotOk(r: Registry, i: nat)
    requires i < |r.pool.slots|
  {
    var slot := r.pool.slots[i];
    if slot.state.Idle? then slot.holder.None?
    else
      && slot.holder.Some? && slot.holder.value < |r.sessions|
      && r.sessions[slot.holder.value].slot == i
      && Holding(r.sessions[slot.holder.value].phase) == Some(slot.state)
  }

  predicate Inv(r: Registry) {
    && (forall s :: 0 <= s < |r.sessions| ==> SessionOk(r, s))
    && (forall i :: 0 <= i < |r.pool.slots| ==> SlotOk(r, i))
    && (forall s :: s in r.releases ==> s < |r.sessions|)
  }

  /** One session moves to another phase, and its slot with it. */
  ghost predicate Moves(r: Registry, r': Registry, s: nat) {
    && s < |r.sessions| == |r'.sessions| && |r'.pool.slots| == |r.pool.slots|
    && r'.sessions == r.sessions[s := r'.sessions[s]]
    && r'.sessions[s].slot == r.sessions[s].slot < |r.pool.slots|
    && r'.pool.slots == r.pool.slots[r.sessions[s].slot := r'.pool.slots[r.sessions[s].slot]]
    && (forall t :: t != s ==> (t in r'.releases <==> t in r.releases))
  }

  lemma MoveKeeps(r: Registry, r': Registry, s: nat)
    requires Inv(r) && Moves(r, r', s) && SessionOk(r', s) && SlotOk(r', r'.sessions[s].slot)
    requires Holding(r.sessions[s].phase).Some?
             || (r'.pool.slots == r.pool.slots && Holding(r'.sessions[s].phase).None?)
    ensures Inv(r')
  {
    forall t | 0 <= t < |r'.sessions|
      ensures SessionOk(r', t)
    {
      if t != s {
        assert SessionOk(r, t) && SessionOk(r, s);
      }
    }
    forall i | 0 <= i < |r'.pool.slots|
      ensures SlotOk(r', i)
    {
      assert SlotOk(r, i) && SessionOk(r, s);
    }
  }

  lemma CreateKeeps(r: Registry)
    requires Inv(r)
    ensures Inv(r.Create())
  {
    var r' := r.Create();
    forall s | 0 <= s < |r'.sessions|
      ensures SessionOk(r', s)
    {
      assert s < |r.sessions| ==> SessionOk(r, s);
    }
    forall i | 0 <= i < |r'.pool.slots|
      ensures SlotOk(r', i)
    {
      assert SlotOk(r, i);
    }
  }

  lemma DrainKeeps(r: Registry)
    requires Inv(r)
    ensures Inv(r.(pool := r.pool.BeginServiceDrain()))
  {
    var r' := r.(pool := r.pool.BeginServiceDrain());
    forall s | 0 <= s < |r.sessions|
      ensures SessionOk(r', s)
    {
      assert SessionOk(r, s);
    }
    forall i | 0 <= i < |r.pool.slots|
      ensures SlotOk(r', i)
    {
      assert SlotOk(r, i);
    }
  }

  lemma RefuseKeeps(r: Registry, s: nat)
    requires Inv(r) && At(r, s, Claimed)
    ensures Inv(r.Refuse(s))
  {
    assert SessionOk(r, s) && SlotOk(r, r.sessions[s].slot);
    MoveKeeps(r, r.Refuse(s), s);
  }

  lemma RegisterKeeps(r: Registry, s: nat)
    requires Inv(r) && At(r, s, Claimed)
    ensures Inv(r.Register(s))
  {
    assert SessionOk(r, s) && SlotOk(r, r.sessions[s].slot);
    MoveKeeps(r, r.Register(s), s);
  }

  lemma ReleaseKeeps(r: Registry, s: nat)
    requires Inv(r) && Known(r, s)
    ensures Inv(r.Release(s))
  {
    assert SessionOk(r, s) && SlotOk(r, r.sessions[s].slot);
    MoveKeeps(r, r.Release(s), s);
  }

  lemma MarkKeeps(r: Registry, s: nat)
    requires Inv(r) && At(r, s, Requested)
    ensures Inv(r.Mark(s))
  {
    assert SessionOk(r, s) && SlotOk(r, r.sessions[s].slot);
    MoveKeeps(r, r.Mark(s), s);
  }

  lemma BeginDrainKeeps(r: Registry, s: nat)
    requires Inv(r) && At(r, s, Marked)
    ensures Inv(r.BeginDrain(s))
  {
    assert SessionOk(r, s) && SlotOk(r, r.sessions[s].slot);
    MoveKeeps(r, r.BeginDrain(s), s);
  }

  lemma EndDrainKeeps(r: Registry, s: nat, ok: bool)
    requires Inv(r) && At(r, s, Waiting)
    ensures Inv(r.EndDrain(s, ok))
  {
    assert SessionOk(r, s) && SlotOk(r, r.sessions[s].slot);
    MoveKeeps(r, r.EndDrain(s, ok), s);
  }

  lemma FreeKeeps(r: Registry, s: nat)
    requires Inv(r) && (At(r, s, Drained(true)) || At(r, s, Drained(false)))
    ensures Inv(r.Free(s))
  {
    assert SessionOk(r, s) && SlotOk(r, r.sessions[s].slot);
    MoveKeeps(r, r.Free(s), s);
  }

  lemma CloseKeeps(r: Registry, s: nat)
    requires Inv(r) && (At(r, s, Freed(true)) || At(r, s, Freed(false)))
    ensures Inv(r.Close(s))
  {
    assert SessionOk(r, s) && SlotOk(r, r.sessions[s].slot);
    MoveKeeps(r, r.Close(s), s);
  }

  lemma ForgetKeeps(r: Registry, s: nat)
    requires Inv(r) && (At(r, s, Leaving(true)) || At(r, s, Leaving(false)))
    ensures Inv(r.Forget(s))
  {
    assert SessionOk(r, s) && SlotOk(r, r.sessions[s].slot);
    MoveKeeps(r, r.Forget(s), s);
  }

  lemma StepKeepsInv(r: Registry, step: Step)
    requires Inv(r) && Enabled(r, step)
    ensures Inv(Apply(r, step))
  {
    match step
    case NewSession => CreateKeeps(r);
    case VadFails(s) => RefuseKeeps(r, s);
    case Registered(s) => RegisterKeeps(r, s);
    case AskRelease(s) => ReleaseKeeps(r, s);
    case TaskMarks(s) => MarkKeeps(r, s);
    case TaskBegins(s) => BeginDrainKeeps(r, s);
    case PipelineDrained(s, ok) => EndDrainKeeps(r, s, ok);
    case TaskFrees(s) => FreeKeeps(r, s);
    case TaskCloses(s) => CloseKeeps(r, s);
    case TaskForgotten(s) => ForgetKeeps(r, s);
    case ServiceDrain => DrainKeeps(r);
  }

  lemma {:induction false} RunKeepsInv(r: Registry, steps: seq<Step>)
    requires Inv(r) && Possible(r, steps)
    ensures Inv(Execute(r, steps))
    decreases |steps|
  {
    if steps == [] {
    } else {
      StepKeepsInv(r, steps[0]);
      RunKeepsInv(Apply(r, steps[0]), steps[1..]);
    }
  }

  function Initial(slots: nat): Registry {
    Registry(Pool(seq(slots, _ => VACANT), false), [], {})
  }

  lemma InitialInv(slots: nat)
    ensures Inv(Initial(slots))
  {
    assert forall i :: 0 <= i < slots ==> Initial(slots).pool.slots[i] == VACANT;
  }

  // ---- Main results ----

  /** In every run no slot is held by two sessions whose slot was not given back. */
  lemma SlotsAreExclusive(slots: nat, steps: seq<Step>, s: nat, t: nat)
    requires Possible(Initial(slots), steps)
    requires var r := Execute(Initial(slots), steps);
             s < t < |r.sessions| && Holding(r.sessions[s].phase).Some? && Holding(r.sessions[t].phase).Some?
    ensures var r := Execute(Initial(slots), steps); r.sessions[s].slot != r.sessions[t].slot
  {
    InitialInv(slots);
    RunKeepsInv(Initial(slots), steps);
    var r := Execute(Initial(slots), steps);
    assert SessionOk(r, s) && SessionOk(r, t);
  }

  /** The step gives a session's slot back, or marks it stuck. */
  predicate Completes(step: Step, s: nat) {
    step == VadFails(s) || step == TaskFrees(s)
  }

  function Completions(steps: seq<Step>, s: nat): nat {
    if steps == [] then 0 else (if Completes(steps[0], s) then 1 else 0) + Completions(steps[1..], s)
  }

  predicate Past(r: Registry, s: nat) {
    s < |r.sessions|
    && var p := r.sessions[s].phase; p.Refused? || p.Freed? || p.Leaving? || p.Gone?
  }

  lemma StepCompletes(r: Registry, step: Step, s: nat)
    requires Inv(r) && Enabled(r, step)
    ensures Past(Apply(r, step), s) <==> Past(r, s) || Completes(step, s)
    ensures Completes(step, s) ==> !Past(r, s)
  {
    if s < |r.sessions| {
      assert SessionOk(r, s);
    }
  }

  /** However often release is asked for, each session's slot is released exactly once, or not yet. */
  lemma {:induction false} SlotReleasedOnce(r: Registry, steps: seq<Step>, s: nat)
    requires Inv(r) && Possible(r, steps) && !Past(r, s)
    ensures Completions(steps, s) == if Past(Execute(r, steps), s) then 1 else 0
    decreases |steps|
  {
    if steps == [] {
    } else {
      StepKeepsInv(r, steps[0]);
      StepCompletes(r, steps[0], s);
      if Completes(steps[0], s) {
        NeverAgain(Apply(r, steps[0]), steps[1..], s);
      } else {
        SlotReleasedOnce(Apply(r, steps[0]), steps[1..], s);
      }
    }
  }

  lemma {:induction false} NeverAgain(r: Registry, steps: seq<Step>, s: nat)
    requires Inv(r) && Possible(r, steps) && Past(r, s)
    ensures Completions(steps, s) == 0 && Past(Execute(r, steps), s)
    decreases |steps|
  {
    if steps == [] {
    } else {
      StepKeepsInv(r, steps[0]);
      StepCompletes(r, steps[0], s);
      NeverAgain(Apply(r, steps[0]), steps[1..], s);
    }
  }

  /** The session a step works for. */
  function Actor(r: Registry, step: Step): nat {
    if step.NewSession? || step.ServiceDrain? then |r.sessions| else step.s
  }

  /** A step touches a slot only while its session holds it; a claim touches only an idle one. */
  lemma OldReleaseSparesOthers(r: Registry, step: Step, i: nat)
    requires Inv(r) && Enabled(r, step) && i < |r.pool.slots|
    requires Apply(r, step).pool.slots[i] != r.pool.slots[i]
    ensures if step.NewSession? then r.pool.slots[i].state.Idle?
            else r.pool.slots[i].holder == Some(Actor(r, step)) && !r.pool.slots[i].state.Stuck?
  {
    if !step.NewSession? {
      assert SessionOk(r, Actor(r, step));
    }
  }

  /** A stuck slot is never claimed or freed again. */
  lemma {:induction false} StuckForGood(r: Registry, steps: seq<Step>, i: nat)
    requires Inv(r) && Possible(r, steps) && i < |r.pool.slots| && r.pool.slots[i].state.Stuck?
    ensures i < |Execute(r, steps).pool.slots| && Execute(r, steps).pool.slots[i] == r.pool.slots[i]
    decreases |steps|
  {
    if steps == [] {
    } else {
      StepKeepsInv(r, steps[0]);
      if Apply(r, steps[0]).pool.slots[i] != r.pool.slots[i] {
        OldReleaseSparesOthers(r, steps[0], i);
      }
      StuckForGood(Apply(r, steps[0]), steps[1..], i);
    }
  }

  // ---- What becomes of a release ----

  /** The pipeline of the session drained (`ok`) or failed to, and everything since agrees with that. */
  predicate Decided(r: Registry, s: nat, ok: bool) {
    s < |r.sessions|
    && var p := r.sessions[s].phase; (p.Drained? || p.Freed? || p.Leaving? || p.Gone?) && p.ok == ok
  }

  lemma {:induction false} DecidedStays(r: Registry, steps: seq<Step>, s: nat, ok: bool)
    requires Inv(r) && Possible(r, steps) && Decided(r, s, ok)
    ensures Inv(Execute(r, steps)) && Decided(Execute(r, steps), s, ok)
    decreases |steps|
  {
    if steps == [] {
    } else {
      StepKeepsInv(r, steps[0]);
      assert SessionOk(r, s);
      DecidedStays(Apply(r, steps[0]), steps[1..], s, ok);
    }
  }

  /**
   After the drain of a session, in every continuation: a failed one leaves its slot
   draining or stuck in its name and the session hung; a good one never leaves it stuck,
   and a finished release has closed the session.
   */
  lemma DrainDecides(r: Registry, ok: bool, steps: seq<Step>, s: nat)
    requires Inv(r) && Enabled(r, PipelineDrained(s, ok)) && Possible(r.EndDrain(s, ok), steps)
    ensures var after := Execute(r.EndDrain(s, ok), steps);
            && s < |after.sessions|
            && var session, slots := after.sessions[s], after.pool.slots;
            && session.slot == r.sessions[s].slot < |slots|
            && (!ok ==> session.life == Hung
                        && slots[session.slot] == Slot(if Past(after, s) then Stuck else Draining, Some(s)))
            && (ok ==> slots[session.slot] != Slot(Stuck, Some(s)))
            && (ok && s !in after.releases ==> session.life == Closed)
  {
    StepKeepsInv(r, PipelineDrained(s, ok));
    DecidedStays(r.EndDrain(s, ok), steps, s, ok);
    SlotStays(r, [PipelineDrained(s, ok)] + steps, s);
    assert ([PipelineDrained(s, ok)] + steps)[1..] == steps;
    var after := Execute(r.EndDrain(s, ok), steps);
    assert SessionOk(after, s) && SlotOk(after, after.sessions[s].slot);
  }

  lemma {:induction false} SlotStays(r: Registry, steps: seq<Step>, s: nat)
    requires Possible(r, steps) && s < |r.sessions|
    ensures s < |Execute(r, steps).sessions| && Execute(r, steps).sessions[s].slot == r.sessions[s].slot
    decreases |steps|
  {
    if steps == [] {
    } else {
      SlotStays(Apply(r, steps[0]), steps[1..], s);
    }
  }

  /** The step takes the slot of the session and leaves it idle, with nobody holding it. */
  lemma GivenBack(r: Registry, step: Step, s: nat)
    requires Inv(r) && Enabled(r, step) && (step == VadFails(s) || (step == TaskFrees(s) && Decided(r, s, true)))
    ensures Apply(r, step).pool.slots == r.pool.slots[r.sessions[s].slot := VACANT]
  {
    assert SessionOk(r, s);
  }

  /** How many of its steps the release task of a session has behind it. */
  function Progress(p: Phase): nat {
    match p
    case Claimed => 0
    case Refused => 0
    case Running => 0
    case Requested => 0
    case Marked => 1
    case Waiting => 2
    case Drained(_) => 3
    case Freed(_) => 4
    case Leaving(_) => 5
    case Gone(_) => 6
  }

  /** The step is one of the release task of the session. */
  predicate Works(step: Step, s: nat) {
    match step
    case TaskMarks(t) => t == s
    case TaskBegins(t) => t == s
    case PipelineDrained(t, _) => t == s
    case TaskFrees(t) => t == s
    case TaskCloses(t) => t == s
    case TaskForgotten(t) => t == s
    case _ => false
  }

  function Worked(steps: seq<Step>, s: nat): nat {
    if steps == [] then 0 else (if Works(steps[0], s) then 1 else 0) + Worked(steps[1..], s)
  }

  predicate Asked(r: Registry, s: nat) {
    s < |r.sessions| && (Releasing(r.sessions[s].phase) || r.sessions[s].phase.Gone?)
  }

  lemma {:induction false} ReleaseGoesOn(r: Registry, steps: seq<Step>, s: nat)
    requires Inv(r) && Possible(r, steps) && Asked(r, s)
    ensures Inv(Execute(r, steps)) && Asked(Execute(r, steps), s)
    ensures Progress(Execute(r, steps).sessions[s].phase) == Progress(r.sessions[s].phase) + Worked(steps, s)
    decreases |steps|
  {
    if steps == [] {
    } else {
      StepKeepsInv(r, steps[0]);
      assert SessionOk(r, s);
      ReleaseGoesOn(Apply(r, steps[0]), steps[1..], s);
    }
  }

  /** The next step of the release task of a session. */
  function NextWork(p: Phase, s: nat, ok: bool): Step
    requires Releasing(p)
  {
    match p
    case Requested => TaskMarks(s)
    case Marked => TaskBegins(s)
    case Waiting => PipelineDrained(s, ok)
    case Drained(_) => TaskFrees(s)
    case Freed(_) => TaskCloses(s)
    case Leaving(_) => TaskForgotten(s)
  }

  /**
   A running session asked to be released is, whatever happens in between: its task has a
   next step that can be taken until it has taken six, and then the session has left the
   release table, closed or hung.
   */
  lemma AskedIsReleased(r: Registry, steps: seq<Step>, s: nat, ok: bool)
    requires Inv(r) && At(r, s, Running) && Possible(r.Release(s), steps)
    ensures var after := Execute(r.Release(s), steps);
            && s < |after.sessions| && Worked(steps, s) <= 6
            && (s in after.releases <==> Worked(steps, s) < 6)
            && (Worked(steps, s) < 6 ==>
                  && Releasing(after.sessions[s].phase)
                  && Works(NextWork(after.sessions[s].phase, s, ok), s)
                  && Enabled(after, NextWork(after.sessions[s].phase, s, ok)))
            && (Worked(steps, s) == 6 ==>
                  after.sessions[s].life.Closed? || after.sessions[s].life.Hung?)
  {
    assert SessionOk(r, s);
    StepKeepsInv(r, AskRelease(s));
    ReleaseGoesOn(r.Release(s), steps, s);
    assert SessionOk(Execute(r.Release(s), steps), s);
  }

  /** Steps that give no slot back and do not stop the service. */
  predicate Calm(steps: seq<Step>) {
    forall i :: 0 <= i < |steps| ==> !steps[i].VadFails? && !steps[i].TaskFrees? && !steps[i].ServiceDrain?
  }

  function Attempts(steps: seq<Step>): nat {
    if steps == [] then 0 else (if steps[0].NewSession? then 1 else 0) + Attempts(steps[1..])
  }

  lemma CalmStep(r: Registry, step: Step)
    requires Enabled(r, step) && Calm([step])
    ensures var r' := Apply(r, step);
            if step.NewSession? && r.pool.Available() > 0
            then r'.pool.Available() == r.pool.Available() - 1 && |r'.sessions| == |r.sessions| + 1
            else r'.pool.Available() == r.pool.Available() && |r'.sessions| == |r.sessions|
  {
    assert [step][0] == step;
    match step
    case NewSession => ClaimTakesOne(r.pool, |r.sessions|);
    case TaskBegins(s) =>
      var i := r.sessions[s].slot;
      CountUpdate(r.pool.slots, i, r.pool.slots[i].(state := Draining), Idle);
    case _ =>
  }

  /** While nothing is given back, exactly the available number of claims succeeds. */
  lemma {:induction false} ClaimsWithoutReleases(r: Registry, steps: seq<Step>)
    requires Possible(r, steps) && Calm(steps)
    ensures |Execute(r, steps).sessions| == |r.sessions| + Min(Attempts(steps), r.pool.Available())
    decreases |steps|
  {
    if steps == [] {
    } else {
      assert [steps[0]][0] == steps[0];
      CalmStep(r, steps[0]);
      ClaimsWithoutReleases(Apply(r, steps[0]), steps[1..]);
    }
  }

  function Min(a: nat, b: nat): nat {
    if a < b then a else b
  }

  /** Once the service drains, no session is admitted any more, whatever is given back. */
  lemma DrainAdmitsNobody(r: Registry, steps: seq<Step>)
    requires Possible(Apply(r, ServiceDrain), steps)
    ensures |Execute(Apply(r, ServiceDrain), steps).sessions| == |r.sessions|
  {
    StaysDraining(Apply(r, ServiceDrain), steps);
  }

  lemma {:induction false} StaysDraining(r: Registry, steps: seq<Step>)
    requires r.pool.draining && Possible(r, steps)
    ensures |Execute(r, steps).sessions| == |r.sessions|
    decreases |steps|
  {
    if steps == [] {
    } else {
      StaysDraining(Apply(r, steps[0]), steps[1..]);
    }
  }

  // ---- In place ----

  class SessionRegistry {
    const capacity: CapacityManager
    var sessions: seq<Session>
    var releases: set<nat>

    ghost predicate Valid()
      reads this, capacity, capacity.slots
    {
      capacity.Valid() && Inv(View())
    }

    ghost function View(): Registry
      reads this, capacity, capacity.slots
    {
      Registry(capacity.View(), sessions, releases)
    }

    constructor (capacity: CapacityManager)
      requires capacity.Valid() && capacity.View() == Initial(|capacity.slots|).pool
      ensures Valid() && View() == Initial(|capacity.slots|) && this.capacity == capacity
    {
      this.capacity := capacity;
      sessions, releases := [], {};
      new;
      InitialInv(|capacity.slots|);
    }

    /** The first part of `create`; a session without a slot is turned away. */
    method Create() returns (session: Option<nat>)
      requires Valid()
      modifies this, capacity.slots
      ensures Valid() && capacity.slots == old(capacity.slots)
      ensures View() == old(View()).Create()
      ensures session == if old(View()).pool.Next().Some? then Some(old(|sessions|)) else None
    {
      StepKeepsInv(View(), NewSession);
      var slot := capacity.Claim(|sessions|);
      if slot.None? {
        return None;
      }
      session := Some(|sessions|);
      sessions := sessions + [Session(slot.value, Living, Claimed)];
    }

    method VadFailed(s: nat)
      requires Valid() && Enabled(View(), VadFails(s))
      modifies this, capacity.slots
      ensures Valid() && capacity.slots == old(capacity.slots) && View() == old(View()).Refuse(s)
    {
      StepKeepsInv(View(), VadFails(s));
      capacity.CompleteRelease(sessions[s].slot, true);
      sessions := sessions[s := sessions[s].(phase := Refused)];
    }

    method Register(s: nat)
      requires Valid() && Enabled(View(), Registered(s))
      modifies this
      ensures Valid() && View() == old(View()).Register(s)
    {
      StepKeepsInv(View(), Registered(s));
      sessions := sessions[s := sessions[s].(phase := Running)];
    }

    /** The part of `release` under the lock; the answer is known, or the release task will give it. */
    method Release(s: nat) returns (answer: Option<bool>)
      requires Valid() && Enabled(View(), AskRelease(s))
      modifies this
      ensures Valid() && View() == old(View()).Release(s)
      ensures answer == match old(sessions[s].life)
                        case Closed => Some(true)
                        case Hung => Some(false)
                        case _ => None
    {
      StepKeepsInv(View(), AskRelease(s));
      if sessions[s].life == Closed {
        return Some(true);
      }
      if sessions[s].life == Hung {
        return Some(false);
      }
      if s !in releases {
        sessions := sessions[s := sessions[s].(phase := Requested)];
        releases := releases + {s};
      }
      answer := None;
    }

    method MarkDraining(s: nat)
      requires Valid() && Enabled(View(), TaskMarks(s))
      modifies this
      ensures Valid() && View() == old(View()).Mark(s)
    {
      StepKeepsInv(View(), TaskMarks(s));
      sessions := sessions[s := sessions[s].(life := Drain, phase := Marked)];
    }

    method BeginDrain(s: nat)
      requires Valid() && Enabled(View(), TaskBegins(s))
      modifies this, capacity.slots
      ensures Valid() && capacity.slots == old(capacity.slots) && View() == old(View()).BeginDrain(s)
    {
      StepKeepsInv(View(), TaskBegins(s));
      capacity.BeginRelease(sessions[s].slot);
      sessions := sessions[s := sessions[s].(phase := Waiting)];
    }

    method EndDrain(s: nat, drained: bool)
      requires Valid() && Enabled(View(), PipelineDrained(s, drained))
      modifies this
      ensures Valid() && View() == old(View()).EndDrain(s, drained)
    {
      StepKeepsInv(View(), PipelineDrained(s, drained));
      var session := sessions[s].(phase := Drained(drained));
      if !drained {
        session := session.(life := Hung);
      }
      sessions := sessions[s := session];
    }

    method FreeSlot(s: nat)
      requires Valid() && Enabled(View(), TaskFrees(s))
      modifies this, capacity.slots
      ensures Valid() && capacity.slots == old(capacity.slots) && View() == old(View()).Free(s)
    {
      StepKeepsInv(View(), TaskFrees(s));
      capacity.CompleteRelease(sessions[s].slot, sessions[s].phase.ok);
      sessions := sessions[s := sessions[s].(phase := Freed(sessions[s].phase.ok))];
    }

    method CloseSession(s: nat)
      requires Valid() && Enabled(View(), TaskCloses(s))
      modifies this
      ensures Valid() && View() == old(View()).Close(s)
    {
      StepKeepsInv(View(), TaskCloses(s));
      var session := sessions[s].(phase := Leaving(sessions[s].phase.ok));
      if sessions[s].phase.ok {
        session := session.(life := Closed);
      }
      sessions := sessions[s := session];
    }

    method ForgetTask(s: nat)
      requires Valid() && Enabled(View(), TaskForgotten(s))
      modifies this
      ensures Valid() && View() == old(View()).Forget(s)
    {
      StepKeepsInv(View(), TaskForgotten(s));
      sessions := sessions[s := sessions[s].(phase := Gone(sessions[s].phase.ok))];
      releases := releases - {s};
    }

    method BeginServiceDrain()
      requires Valid()
      modifies capacity
      ensures Valid() && capacity.slots == old(capacity.slots)
      ensures View() == old(View()).(pool := old(View()).pool.BeginServiceDrain())
    {
      StepKeepsInv(View(), ServiceDrain);
      capacity.BeginServiceDrain();
    }
  }
}
