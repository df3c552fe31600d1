/**
 Where turns begin and end, against a record kept beside the run.

 The record notes only the utterance that the run has opened: its turn, its revision and
 its first sample, the later of the reported start of speech and the first sample still
 buffered. `StepCommitsExactly` says which steps commit a turn and which turn it is;
 `CandidatesExactly` and `BufferMoves` say the same of the candidates and of what is
 discarded; `RunKeepsRecord` extends the record over all runs.
 */
module TurnRecord {
  import opened Options
  import opened AudioBuffers
  import opened TurnProtocol
  import opened TurnSafety
  import V = SileroVad

  datatype Opening = Opening(turnId: nat, revision: int, start: nat)

  /** The signal that the next window produces. */
  function SignalOf(cfg: Settings, f: Front, step: Step): Option<V.Signal>
    requires step.NextWindow? ==> f.windows != []
  {
    if step.NextWindow? then V.Advance(cfg.vad, f.vad, f.windows[0]).1 else None
  }

  /** The candidate is the current one of the open utterance. */
  predicate CurrentFor(o: Option<Opening>, f: Front, c: Candidate) {
    o.Some? && c.turnId == o.value.turnId && c.revision == o.value.revision && c.id == f.candidateId
  }

  /** The steps that commit a turn. */
  predicate Commits(cfg: Settings, o: Option<Opening>, f: Front, step: Step)
    requires Enabled(cfg, f, step)
  {
    match step
    case NextWindow =>
      var signal := SignalOf(cfg, f, step);
      signal.Some? && signal.value.Stopped? && !cfg.semantic && o.Some?
    case Decide(c, complete) =>
      CurrentFor(o, f, c) && (complete || f.incomplete + 1 >= 2)
    case Timeout(c) => CurrentFor(o, f, c)
    case CommitAudio => o.Some? || |f.buffer.data| > 0
    case _ => false
  }

  /** The last sample of the turn such a step commits. */
  function EndOf(cfg: Settings, f: Front, step: Step): nat
    requires Enabled(cfg, f, step)
  {
    match step
    case NextWindow => if SignalOf(cfg, f, step).Some? then SignalOf(cfg, f, step).value.sample else 0
    case Decide(c, _) => c.sample
    case Timeout(c) => c.sample
    case _ => f.buffer.end
  }

  /** A commit without an open utterance opens one over the whole buffer. */
  function OpenedBy(f: Front, o: Option<Opening>): Opening {
    if o.Some? then o.value else Opening(f.turns, f.revision + 1, f.buffer.first)
  }

  function CauseOf(step: Step): Option<nat> {
    match step
    case Decide(c, _) => Some(c.id)
    case Timeout(c) => Some(c.id)
    case _ => None
  }

  /** The stretch of the input stream between two sample indices. */
  function Stretch(f: Front, start: int, end: int): seq<byte> {
    var lo, hi := 2 * (f.base + start), 2 * (f.base + end);
    if 0 <= lo <= hi <= |f.stream| then f.stream[lo..hi] else []
  }

  /** The turns a step commits: one or none. */
  function Expected(cfg: Settings, o: Option<Opening>, f: Front, step: Step): seq<Turn>
    requires Enabled(cfg, f, step)
  {
    if !Commits(cfg, o, f, step) then []
    else
      var u, end := OpenedBy(f, o), EndOf(cfg, f, step);
      [Turn(u.turnId, u.revision, f.base, u.start, end, Stretch(f, u.start, end), CauseOf(step))]
  }

  function NoteOpening(cfg: Settings, o: Option<Opening>, f: Front, step: Step): Option<Opening>
    requires Enabled(cfg, f, step)
  {
    var signal := SignalOf(cfg, f, step);
    if Commits(cfg, o, f, step) || step.ClearAudio? then None
    else if o.None? && signal.Some? && signal.value.Started? then
      Some(Opening(f.turns, f.revision + 1, Max(signal.value.sample, f.buffer.first)))
    else o
  }

  /** The state has open what the record says. */
  predicate OpeningOk(o: Option<Opening>, f: Front) {
    match o
    case None => f.speechStart.None?
    case Some(u) => f.speechStart == Some(u.start) && f.turnId == Some(u.turnId) && f.revision == u.revision
  }

  // ---- Which turn a step commits ----

  /** What ending an utterance appends. */
  lemma StopAppends(f: Front, sample: nat, cause: Option<nat>)
    requires !f.fault && BufferOk(f) && SpeechOk(f) && TurnsOk(f)
    requires f.speechStart.Some? && f.speechStart.value <= sample <= f.buffer.end
    ensures f.SpeechStopped(sample, cause).committed ==
            f.committed + [Turn(f.turnId.value, f.revision, f.base, f.speechStart.value, sample,
                                Stretch(f, f.speechStart.value, sample), cause)]
    ensures f.SpeechStopped(sample, cause).speechStart.None?
    ensures f.SpeechStopped(sample, cause).buffer.first == sample
    ensures f.SpeechStopped(sample, cause).buffer.end == f.buffer.end
  {
    StopCommits(f, sample, cause);
    SliceShows(f.buffer, f.stream, f.base, f.speechStart.value, sample);
  }

  predicate Exactly(cfg: Settings, o: Option<Opening>, f: Front, step: Step)
    requires Enabled(cfg, f, step)
  {
    && Apply(cfg, f, step).committed == f.committed + Expected(cfg, o, f, step)
    && OpeningOk(NoteOpening(cfg, o, f, step), Apply(cfg, f, step))
  }

  lemma WindowExactly(cfg: Settings, o: Option<Opening>, f: Front)
    requires Inv(cfg, f) && OpeningOk(o, f) && Enabled(cfg, f, NextWindow)
    ensures Exactly(cfg, o, f, NextWindow)
  {
    AdvanceMoves(cfg.vad, f.vad, f.windows[0]);
    var (vad', signal) := V.Advance(cfg.vad, f.vad, f.windows[0]);
    if Commits(cfg, o, f, NextWindow) {
      FixedStop(cfg, f);
    } else {
      assert f.committed + [] == f.committed;
    }
  }

  /** A stop in fixed-silence mode. */
  lemma FixedStop(cfg: Settings, f: Front)
    requires Inv(cfg, f) && Enabled(cfg, f, NextWindow) && !cfg.semantic && f.speechStart.Some?
    requires SignalOf(cfg, f, NextWindow).Some? && SignalOf(cfg, f, NextWindow).value.Stopped?
    ensures var sample := SignalOf(cfg, f, NextWindow).value.sample;
            && f.HandleWindow(cfg).committed == f.committed + [Turn(f.turnId.value, f.revision, f.base,
                 f.speechStart.value, sample, Stretch(f, f.speechStart.value, sample), None)]
            && f.HandleWindow(cfg).speechStart.None?
  {
    AdvanceMoves(cfg.vad, f.vad, f.windows[0]);
    var (vad', signal) := V.Advance(cfg.vad, f.vad, f.windows[0]);
    StopAppends(f.(vad := vad', windows := f.windows[1..]), signal.value.sample, None);
  }

  /** An incomplete verdict that is not the last one, and a verdict that came too late, change no turn. */
  lemma DecideExactly(cfg: Settings, o: Option<Opening>, f: Front, c: Candidate, complete: bool)
    requires Inv(cfg, f) && OpeningOk(o, f) && c in f.candidates
    ensures Exactly(cfg, o, f, Decide(c, complete))
  {
    assert Outstanding(f, c) && (f.IsFresh(c) ==> Live(f, c));
    assert f.IsFresh(c) <==> CurrentFor(o, f, c);
    assert f.committed + [] == f.committed;
    var next := f.(candidates := f.candidates - {c});
    if f.IsFresh(c) {
      GroundKeeps(f, next);
    }
    if f.IsFresh(c) && complete {
      StopAppends(next, c.sample, Some(c.id));
    } else if f.IsFresh(c) {
      LastVerdict(f, next, c);
    }
  }

  lemma LastVerdict(f: Front, next: Front, c: Candidate)
    requires !f.fault && BufferOk(f) && SpeechOk(f) && TurnsOk(f) && next == f.(candidates := f.candidates - {c})
    requires f.speechStart.Some? && f.speechStart.value <= c.sample <= f.buffer.end
    ensures var stopped := next.(incomplete := f.incomplete + 1).SpeechStopped(c.sample, Some(c.id));
            && stopped.committed == next.SpeechStopped(c.sample, Some(c.id)).committed
            && stopped.committed == f.committed + [Turn(f.turnId.value, f.revision, f.base, f.speechStart.value,
                                    c.sample, Stretch(f, f.speechStart.value, c.sample), Some(c.id))]
            && stopped.speechStart.None?
  {
    GroundKeeps(f, next);
    StopAppends(next, c.sample, Some(c.id));
  }

  lemma TimeoutExactly(cfg: Settings, o: Option<Opening>, f: Front, c: Candidate)
    requires Inv(cfg, f) && OpeningOk(o, f) && c in f.fallbacks
    ensures Exactly(cfg, o, f, Timeout(c))
  {
    assert Outstanding(f, c) && (f.IsFresh(c) ==> Live(f, c));
    assert f.committed + [] == f.committed;
    if f.IsFresh(c) {
      var next := f.(fallbacks := f.fallbacks - {c});
      GroundKeeps(f, next);
      StopAppends(next, c.sample, Some(c.id));
    }
  }

  lemma CommitExactly(cfg: Settings, o: Option<Opening>, f: Front)
    requires Inv(cfg, f) && OpeningOk(o, f) && !f.busy
    ensures Exactly(cfg, o, f, CommitAudio)
  {
    assert f.committed + [] == f.committed;
    if f.speechStart.Some? {
      OpenExactly(cfg, f);
    } else if |f.buffer.data| > 0 {
      ManualExactly(cfg, f);
    }
  }

  lemma OpenExactly(cfg: Settings, f: Front)
    requires Inv(cfg, f) && !f.busy && f.speechStart.Some?
    ensures var ended := f.Void().EndInput();
            && ended.committed == f.committed + [Turn(f.turnId.value, f.revision, f.base, f.speechStart.value,
                                    f.buffer.end, Stretch(f, f.speechStart.value, f.buffer.end), None)]
            && ended.speechStart.None?
  {
    var void := f.Void();
    GroundKeeps(f, void);
    StopAppends(void, f.buffer.end, None);
  }

  lemma ManualGround(cfg: Settings, f: Front)
    requires Inv(cfg, f) && !f.busy && f.speechStart.None?
    ensures var counted := f.Void().OpenManually().(incomplete := 0);
            BufferOk(counted) && SpeechOk(counted) && TurnsOk(counted)
  {
    var counted := f.Void().OpenManually().(incomplete := 0);
    GroundKeeps(f, counted.(speechStart := None, turnId := f.turnId, revision := f.revision));
    assert counted.committed == f.committed;
  }

  lemma ManualExactly(cfg: Settings, f: Front)
    requires Inv(cfg, f) && !f.busy && f.speechStart.None?
    ensures var ended := f.Void().OpenManually().EndInput();
            && ended.committed == f.committed + [Turn(f.turns, f.revision + 1, f.base, f.buffer.first, f.buffer.end,
                                                      Stretch(f, f.buffer.first, f.buffer.end), None)]
            && ended.speechStart.None?
  {
    var manual := f.Void().OpenManually();
    var counted := manual.(incomplete := 0);
    ManualGround(cfg, f);
    StopAppends(counted, f.buffer.end, None);
    SameCommit(manual, 0, f.buffer.end, None);
  }

  /** The verdict counter plays no part in which turn is committed. */
  lemma SameCommit(f: Front, count: nat, sample: nat, cause: Option<nat>)
    ensures f.SpeechStopped(sample, cause).committed == f.(incomplete := count).SpeechStopped(sample, cause).committed
    ensures f.SpeechStopped(sample, cause).speechStart
            == f.(incomplete := count).SpeechStopped(sample, cause).speechStart
  {
  }

  /**
   A step commits a turn exactly when it is a stop in fixed-silence mode, a complete or
   second incomplete verdict or the fallback of the current candidate, or a commit with
   something to commit. The turn begins where the record says and ends at the sample of
   the signal, of the candidate, or at the end of the buffer.
   */
  lemma StepCommitsExactly(cfg: Settings, o: Option<Opening>, f: Front, step: Step)
    requires Inv(cfg, f) && OpeningOk(o, f) && Enabled(cfg, f, step)
    ensures Apply(cfg, f, step).committed == f.committed + Expected(cfg, o, f, step)
    ensures OpeningOk(NoteOpening(cfg, o, f, step), Apply(cfg, f, step))
  {
    assert f.committed + [] == f.committed;
    match step
    case NextWindow => WindowExactly(cfg, o, f);
    case Decide(c, complete) => DecideExactly(cfg, o, f, c, complete);
    case Timeout(c) => TimeoutExactly(cfg, o, f, c);
    case CommitAudio => CommitExactly(cfg, o, f);
    case _ =>
  }

  function NoteOpenings(cfg: Settings, o: Option<Opening>, f: Front, steps: seq<Step>): Option<Opening>
    requires Possible(cfg, f, steps)
    decreases |steps|
  {
    if steps == [] then o
    else NoteOpenings(cfg, NoteOpening(cfg, o, f, steps[0]), Apply(cfg, f, steps[0]), steps[1..])
  }

  /** The turns that the record of a run expects, in order. */
  function ExpectedTurns(cfg: Settings, o: Option<Opening>, f: Front, steps: seq<Step>): seq<Turn>
    requires Possible(cfg, f, steps)
    decreases |steps|
  {
    if steps == [] then []
    else
      Expected(cfg, o, f, steps[0])
      + ExpectedTurns(cfg, NoteOpening(cfg, o, f, steps[0]), Apply(cfg, f, steps[0]), steps[1..])
  }

  lemma Regroup(a: seq<Turn>, b: seq<Turn>, c: seq<Turn>)
    ensures (a + b) + c == a + (b + c)
  {
  }

  /** Over all runs the committed turns are exactly the expected ones. */
  lemma {:induction false} RunKeepsRecord(cfg: Settings, o: Option<Opening>, f: Front, steps: seq<Step>)
    requires Inv(cfg, f) && OpeningOk(o, f) && Possible(cfg, f, steps)
    ensures Execute(cfg, f, steps).committed == f.committed + ExpectedTurns(cfg, o, f, steps)
    ensures OpeningOk(NoteOpenings(cfg, o, f, steps), Execute(cfg, f, steps))
    decreases |steps|
  {
    if steps == [] {
      assert f.committed + [] == f.committed;
    } else {
      var next, noted := Apply(cfg, f, steps[0]), NoteOpening(cfg, o, f, steps[0]);
      StepKeepsInv(cfg, f, steps[0]);
      StepCommitsExactly(cfg, o, f, steps[0]);
      RunKeepsRecord(cfg, noted, next, steps[1..]);
      Regroup(f.committed, Expected(cfg, o, f, steps[0]), ExpectedTurns(cfg, noted, next, steps[1..]));
    }
  }

  // ---- Candidates and the buffer ----

  /** A stop of speech in semantic mode opens the next candidate, with the end of the utterance for the classifier. */
  function NewCandidates(cfg: Settings, o: Option<Opening>, f: Front, step: Step): set<Candidate>
    requires Enabled(cfg, f, step)
  {
    var signal := SignalOf(cfg, f, step);
    if cfg.semantic && o.Some? && signal.Some? && signal.value.Stopped? then
      var sample := signal.value.sample;
      var audio := Stretch(f, Max(o.value.start, sample - cfg.maxSamples), sample);
      {Candidate(f.candidateId + 1, o.value.turnId, o.value.revision, sample, audio)}
    else {}
  }

  /** The first incomplete verdict about the current candidate starts its fallback. */
  predicate Waits(o: Option<Opening>, f: Front, step: Step) {
    step.Decide? && !step.complete && CurrentFor(o, f, step.candidate) && f.incomplete + 1 < 2
  }

  /** The signals and requests that void every candidate so far. */
  predicate Voids(cfg: Settings, o: Option<Opening>, f: Front, step: Step)
    requires Enabled(cfg, f, step)
  {
    var signal := SignalOf(cfg, f, step);
    || step.CommitAudio? || step.ClearAudio?
    || (o.Some? && signal.Some? && (signal.value.Started? || cfg.semantic))
  }

  lemma WindowCandidates(cfg: Settings, o: Option<Opening>, f: Front)
    requires Inv(cfg, f) && OpeningOk(o, f) && Enabled(cfg, f, NextWindow)
    ensures var f' := Apply(cfg, f, NextWindow);
            && f'.candidates == f.candidates + NewCandidates(cfg, o, f, NextWindow)
            && f'.fallbacks == f.fallbacks
            && f'.candidateId == f.candidateId + (if Voids(cfg, o, f, NextWindow) then 1 else 0)
  {
    AdvanceMoves(cfg.vad, f.vad, f.windows[0]);
    var (vad', signal) := V.Advance(cfg.vad, f.vad, f.windows[0]);
    var next := f.(vad := vad', windows := f.windows[1..]);
    if cfg.semantic && o.Some? && signal.Some? && signal.value.Stopped? {
      var sample := signal.value.sample;
      SliceShows(next.buffer, f.stream, f.base, Max(o.value.start, sample - cfg.maxSamples), sample);
    }
  }

  predicate CandidatesFollow(cfg: Settings, o: Option<Opening>, f: Front, step: Step)
    requires Enabled(cfg, f, step)
  {
    var f' := Apply(cfg, f, step);
    && f'.candidates == f.candidates + NewCandidates(cfg, o, f, step)
                        - (if step.Decide? then {step.candidate} else {})
    && f'.fallbacks == f.fallbacks + (if Waits(o, f, step) then {step.candidate} else {})
                       - (if step.Timeout? then {step.candidate} else {})
    && f'.candidateId == f.candidateId + (if Voids(cfg, o, f, step) then 1 else 0)
  }

  /** Ending an utterance leaves the candidates. */
  lemma StopLeavesCandidates(f: Front, sample: nat, cause: Option<nat>)
    ensures var f' := f.SpeechStopped(sample, cause);
            f'.candidates == f.candidates && f'.fallbacks == f.fallbacks && f'.candidateId == f.candidateId
  {
  }

  lemma DecideCandidates(cfg: Settings, o: Option<Opening>, f: Front, c: Candidate, complete: bool)
    requires Inv(cfg, f) && OpeningOk(o, f) && c in f.candidates
    ensures CandidatesFollow(cfg, o, f, Decide(c, complete))
  {
    assert f.IsFresh(c) <==> CurrentFor(o, f, c);
    var next := f.(candidates := f.candidates - {c});
    StopLeavesCandidates(next, c.sample, Some(c.id));
    StopLeavesCandidates(next.(incomplete := f.incomplete + 1), c.sample, Some(c.id));
  }

  /** Candidates open, wait for their fallback, are voided and go exactly by these steps. */
  lemma CandidatesExactly(cfg: Settings, o: Option<Opening>, f: Front, step: Step)
    requires Inv(cfg, f) && OpeningOk(o, f) && Enabled(cfg, f, step)
    ensures CandidatesFollow(cfg, o, f, step)
  {
    match step
    case NextWindow => WindowCandidates(cfg, o, f);
    case Decide(c, complete) => DecideCandidates(cfg, o, f, c, complete);
    case Timeout(c) => StopLeavesCandidates(f.(fallbacks := f.fallbacks - {c}), c.sample, Some(c.id));
    case CommitAudio =>
      StopLeavesCandidates(f.Void(), f.buffer.end, None);
      StopLeavesCandidates(f.Void().OpenManually(), f.buffer.end, None);
    case _ =>
  }

  predicate Restarts(cfg: Settings, o: Option<Opening>, f: Front, step: Step)
    requires Enabled(cfg, f, step)
  {
    step.ClearAudio? || (step.CommitAudio? && Commits(cfg, o, f, step))
  }

  /** The first sample still buffered after a step. */
  function FirstAfter(cfg: Settings, o: Option<Opening>, f: Front, step: Step): int
    requires Enabled(cfg, f, step)
  {
    if Restarts(cfg, o, f, step) then 0
    else if Commits(cfg, o, f, step) then EndOf(cfg, f, step)
    else if step.Received? && o.None? && |f.buffer.data| > 64_000 then
      Max(f.buffer.first, f.buffer.end - 32_000)
    else f.buffer.first
  }

  predicate Moves(cfg: Settings, o: Option<Opening>, f: Front, step: Step)
    requires Enabled(cfg, f, step)
  {
    var f' := Apply(cfg, f, step);
    && f'.stream == f.stream + (if step.Receive? then step.payload else [])
    && f'.base == (if Restarts(cfg, o, f, step) then f.base + f.buffer.end else f.base)
    && f'.buffer.first == FirstAfter(cfg, o, f, step)
  }

  /** Ending an utterance moves the buffer only to its end, and nothing else about the stream. */
  lemma StopMoves(f: Front, sample: nat, cause: Option<nat>)
    requires !f.fault && BufferOk(f) && SpeechOk(f) && TurnsOk(f)
    requires f.speechStart.Some? && f.speechStart.value <= sample <= f.buffer.end
    ensures var f' := f.SpeechStopped(sample, cause);
            f'.stream == f.stream && f'.base == f.base && f'.buffer.first == sample && f'.buffer.end == f.buffer.end
  {
  }

  lemma WindowMoves(cfg: Settings, o: Option<Opening>, f: Front)
    requires Inv(cfg, f) && OpeningOk(o, f) && Enabled(cfg, f, NextWindow)
    ensures Moves(cfg, o, f, NextWindow)
  {
    AdvanceMoves(cfg.vad, f.vad, f.windows[0]);
    var (vad', signal) := V.Advance(cfg.vad, f.vad, f.windows[0]);
    assert f.stream + [] == f.stream;
    if Commits(cfg, o, f, NextWindow) {
      StopMoves(f.(vad := vad', windows := f.windows[1..]), signal.value.sample, None);
    }
  }

  lemma DecideMoves(cfg: Settings, o: Option<Opening>, f: Front, c: Candidate, complete: bool)
    requires Inv(cfg, f) && OpeningOk(o, f) && c in f.candidates
    ensures Moves(cfg, o, f, Decide(c, complete))
  {
    assert f.stream + [] == f.stream;
    assert Outstanding(f, c) && (f.IsFresh(c) ==> Live(f, c));
    assert f.IsFresh(c) <==> CurrentFor(o, f, c);
    if f.IsFresh(c) {
      var next := f.(candidates := f.candidates - {c});
      GroundKeeps(f, next);
      StopMoves(next, c.sample, Some(c.id));
      CountPlaysNoPart(next, f.incomplete + 1, c.sample, Some(c.id));
    }
  }

  lemma CountPlaysNoPart(f: Front, count: nat, sample: nat, cause: Option<nat>)
    ensures f.(incomplete := count).SpeechStopped(sample, cause).buffer == f.SpeechStopped(sample, cause).buffer
    ensures f.(incomplete := count).SpeechStopped(sample, cause).base == f.base
    ensures f.(incomplete := count).SpeechStopped(sample, cause).stream == f.stream
  {
  }

  lemma TimeoutMoves(cfg: Settings, o: Option<Opening>, f: Front, c: Candidate)
    requires Inv(cfg, f) && OpeningOk(o, f) && c in f.fallbacks
    ensures Moves(cfg, o, f, Timeout(c))
  {
    assert f.stream + [] == f.stream;
    assert Outstanding(f, c) && (f.IsFresh(c) ==> Live(f, c));
    if f.IsFresh(c) {
      GroundKeeps(f, f.(fallbacks := f.fallbacks - {c}));
      StopMoves(f.(fallbacks := f.fallbacks - {c}), c.sample, Some(c.id));
    }
  }

  lemma CommitMoves(cfg: Settings, o: Option<Opening>, f: Front)
    requires Inv(cfg, f) && OpeningOk(o, f) && !f.busy
    ensures Moves(cfg, o, f, CommitAudio)
  {
    assert f.stream + [] == f.stream;
    if f.speechStart.Some? {
      GroundKeeps(f, f.Void());
      StopMoves(f.Void(), f.buffer.end, None);
    } else if |f.buffer.data| > 0 {
      var manual := f.Void().OpenManually();
      ManualGround(cfg, f);
      StopMoves(manual.(incomplete := 0), f.buffer.end, None);
      CountPlaysNoPart(manual, 0, f.buffer.end, None);
    }
  }

  /**
   Samples are discarded only up to the end of a committed turn, by a restart of the
   indices, or, while nobody speaks and more than 64,000 bytes wait, all but the last
   32,000 samples.
   */
  lemma BufferMoves(cfg: Settings, o: Option<Opening>, f: Front, step: Step)
    requires Inv(cfg, f) && OpeningOk(o, f) && Enabled(cfg, f, step)
    ensures Moves(cfg, o, f, step)
  {
    assert f.stream + [] == f.stream;
    match step
    case NextWindow => WindowMoves(cfg, o, f);
    case Decide(c, complete) => DecideMoves(cfg, o, f, c, complete);
    case Timeout(c) => TimeoutMoves(cfg, o, f, c);
    case CommitAudio => CommitMoves(cfg, o, f);
    case _ =>
  }

  // ---- Turn ids ----

  /** Speech, a manual commit and a response without a turn open the next one. */
  predicate OpensTurn(cfg: Settings, o: Option<Opening>, f: Front, step: Step)
    requires Enabled(cfg, f, step)
  {
    || (o.None? && NoteOpening(cfg, o, f, step).Some?)
    || (step.CommitAudio? && o.None? && |f.buffer.data| > 0)
    || (step.NeedTurn? && f.turnId.None?)
  }

  predicate TurnIs(f: Front, turnId: Option<nat>, turns: nat, revision: int) {
    f.turnId == turnId && f.turns == turns && f.revision == revision
  }

  lemma StopLeavesTurn(f: Front, sample: nat, cause: Option<nat>)
    ensures TurnIs(f.SpeechStopped(sample, cause), f.turnId, f.turns, f.revision)
  {
  }

  /** The current turn changes only when one opens, with the next id and revision, and when the audio is cleared. */
  lemma TurnMoves(cfg: Settings, o: Option<Opening>, f: Front, step: Step)
    requires Inv(cfg, f) && OpeningOk(o, f) && Enabled(cfg, f, step)
    ensures var f' := Apply(cfg, f, step);
            if OpensTurn(cfg, o, f, step) then TurnIs(f', Some(f.turns), f.turns + 1, f.revision + 1)
            else TurnIs(f', if step.ClearAudio? then None else f.turnId, f.turns, f.revision)
  {
    match step
    case Decide(c, complete) =>
      var next := f.(candidates := f.candidates - {c});
      StopLeavesTurn(next, c.sample, Some(c.id));
      StopLeavesTurn(next.(incomplete := f.incomplete + 1), c.sample, Some(c.id));
    case Timeout(c) => StopLeavesTurn(f.(fallbacks := f.fallbacks - {c}), c.sample, Some(c.id));
    case CommitAudio =>
      StopLeavesTurn(f.Void(), f.buffer.end, None);
      StopLeavesTurn(f.Void().OpenManually(), f.buffer.end, None);
    case _ =>
  }
}
