/**
 The turn front end in place (pipeline.py).

 The source runs the detector over a whole payload and then handles its signals one by
 one, while verdicts and fallbacks may come in between. `Source` is that machine;
 `SourceRunsAreProtocolRuns` shows that each of its runs is a run of `TurnProtocol`, which
 handles window by window, so what `TurnSafety` proves holds for it as well. The class
 performs the steps of `Source` and carries that relation as its invariant: no handler
 ever slices or discards outside the buffer.
 */
module TurnFrontEnds {
  import opened Options
  import opened AudioBuffers
  import opened TurnProtocol
  import T = TurnSafety
  import V = SileroVad
  import S = SessionVads

  // ---- The source handles all signals of a payload after all its windows ----

  function HandleWindows(cfg: Settings, f: Front): Front
    decreases |f.windows|
  {
    if f.windows == [] then f else HandleWindows(cfg, Moved(cfg, f))
  }

  function Moved(cfg: Settings, f: Front): (f': Front)
    requires f.windows != []
    ensures f'.windows == f.windows[1..]
  {
    f.HandleWindow(cfg)
  }

  function HandleAll(cfg: Settings, f: Front, signals: seq<V.Signal>): Front
    decreases |signals|
  {
    if signals == [] then f else HandleAll(cfg, f.HandleSignal(cfg, signals[0]), signals[1..])
  }

  /** The speech flags of the complete windows in a stream. */
  function Speech(d: S.Detector, s: S.Stream): seq<bool>
    decreases |s.remainder|
  {
    if |s.remainder| < V.WINDOW_BYTES then []
    else [S.IsSpeech(d, s.heard + [s.remainder[..V.WINDOW_BYTES]])] + Speech(d, S.Step(d, s).0)
  }

  lemma StopIgnoresVad(f: Front, sample: nat, cause: Option<nat>, vad: V.State, windows: seq<bool>)
    ensures f.(vad := vad, windows := windows).SpeechStopped(sample, cause)
            == f.SpeechStopped(sample, cause).(vad := vad, windows := windows)
  {
  }

  /** No handler reads the voice activity state or the windows to come. */
  lemma HandlersIgnoreVad(cfg: Settings, f: Front, signal: V.Signal, vad: V.State, windows: seq<bool>)
    ensures f.(vad := vad, windows := windows).HandleSignal(cfg, signal)
            == f.HandleSignal(cfg, signal).(vad := vad, windows := windows)
  {
    if signal.Stopped? && !cfg.semantic {
      StopIgnoresVad(f, signal.sample, None, vad, windows);
    } else if signal.Stopped? {
      CandidateIgnoresVad(cfg, f, signal.sample, vad, windows);
    }
  }

  lemma CandidateIgnoresVad(cfg: Settings, f: Front, sample: nat, vad: V.State, windows: seq<bool>)
    requires cfg.semantic
    ensures f.(vad := vad, windows := windows).StopCandidate(cfg, sample)
            == f.StopCandidate(cfg, sample).(vad := vad, windows := windows)
  {
  }

  lemma CompleteIgnoresVad(f: Front, c: Candidate, vad: V.State, windows: seq<bool>)
    ensures f.(vad := vad, windows := windows).Verdict(c, true) == f.Verdict(c, true).(vad := vad, windows := windows)
  {
    StopIgnoresVad(f.(candidates := f.candidates - {c}), c.sample, Some(c.id), vad, windows);
  }

  lemma IncompleteIgnoresVad(f: Front, c: Candidate, vad: V.State, windows: seq<bool>)
    ensures f.(vad := vad, windows := windows).Verdict(c, false) == f.Verdict(c, false).(vad := vad, windows := windows)
  {
    var counted := f.(candidates := f.candidates - {c}, incomplete := f.incomplete + 1);
    StopIgnoresVad(counted, c.sample, Some(c.id), vad, windows);
  }

  /** Neither does a verdict or a fallback that may come in between. */
  lemma VerdictsIgnoreVad(f: Front, c: Candidate, complete: bool, vad: V.State, windows: seq<bool>)
    ensures f.(vad := vad, windows := windows).Verdict(c, complete)
            == f.Verdict(c, complete).(vad := vad, windows := windows)
  {
    CompleteIgnoresVad(f, c, vad, windows);
    IncompleteIgnoresVad(f, c, vad, windows);
  }

  lemma FallbacksIgnoreVad(f: Front, c: Candidate, vad: V.State, windows: seq<bool>)
    ensures f.(vad := vad, windows := windows).Fallback(c) == f.Fallback(c).(vad := vad, windows := windows)
  {
    StopIgnoresVad(f.(fallbacks := f.fallbacks - {c}), c.sample, Some(c.id), vad, windows);
  }

  /** Handling a payload window by window is running the detector first and then handling its signals. */
  lemma {:induction false} PayloadIsWindows(cfg: Settings, d: S.Detector, s: S.Stream, f: Front)
    requires cfg.vad == d.config && f.vad == s.state && f.windows == Speech(d, s)
    ensures var (after, signals) := S.Drain(d, s);
            HandleWindows(cfg, f) == HandleAll(cfg, f.(vad := after.state, windows := []), signals)
    decreases |s.remainder|
  {
    if |s.remainder| < V.WINDOW_BYTES {
    } else {
      var (next, signal) := S.Step(d, s);
      var (after, later) := S.Drain(d, next);
      var moved := f.(vad := next.state, windows := f.windows[1..]);
      if signal.Some? {
        HandlersIgnoreVad(cfg, f, signal.value, next.state, f.windows[1..]);
        HandlersIgnoreVad(cfg, f, signal.value, after.state, []);
        assert ([signal.value] + later)[1..] == later;
      } else {
        assert [] + later == later;
      }
      PayloadIsWindows(cfg, d, next, Moved(cfg, f));
    }
  }

  // ---- The source's order as a machine ----

  /** The detector over the windows of a payload. */
  function Detect(c: V.Config, s: V.State, flags: seq<bool>): (V.State, seq<V.Signal>)
    decreases |flags|
  {
    if flags == [] then (s, [])
    else
      var (next, signal) := V.Advance(c, s, flags[0]);
      var (end, later) := Detect(c, next, flags[1..]);
      (end, (if signal.Some? then [signal.value] else []) + later)
  }

  lemma {:induction false} DetectIsDrain(d: S.Detector, s: S.Stream)
    ensures Detect(d.config, s.state, Speech(d, s)) == (S.Drain(d, s).0.state, S.Drain(d, s).1)
    decreases |s.remainder|
  {
    if |s.remainder| < V.WINDOW_BYTES {
    } else {
      DetectIsDrain(d, S.Step(d, s).0);
    }
  }

  /** `pending` holds the signals of the current payload that wait to be handled. */
  datatype Source = Source(front: Front, pending: seq<V.Signal>)

  datatype SourceStep =
    | Payload(payload: seq<byte>, flags: seq<bool>)
    | NextSignal
    | Done
    | Other(step: Step)

  /** The steps that are the same in both machines. */
  predicate Shared(step: Step) {
    step.Decide? || step.Timeout? || step.CommitAudio? || step.ClearAudio? || step.NeedTurn?
  }

  predicate SourceEnabled(cfg: Settings, s: Source, step: SourceStep) {
    match step
    case Payload(payload, flags) => Enabled(cfg, s.front, Receive(payload, flags))
    case NextSignal => s.front.busy && s.pending != []
    case Done => s.front.busy && s.pending == []
    case Other(step) => Shared(step) && Enabled(cfg, s.front, step)
  }

  function SourceApply(cfg: Settings, s: Source, step: SourceStep): Source
    requires SourceEnabled(cfg, s, step)
  {
    match step
    case Payload(payload, flags) =>
      var (vad, signals) := Detect(cfg.vad, s.front.vad, flags);
      Source(s.front.Append(payload, []).(vad := vad), signals)
    case NextSignal => Source(s.front.HandleSignal(cfg, s.pending[0]), s.pending[1..])
    case Done => Source(s.front.EndAppend(), [])
    case Other(step) => s.(front := Apply(cfg, s.front, step))
  }

  predicate SourcePossible(cfg: Settings, s: Source, run: seq<SourceStep>)
    decreases |run|
  {
    run != [] ==> SourceEnabled(cfg, s, run[0]) && SourcePossible(cfg, SourceApply(cfg, s, run[0]), run[1..])
  }

  function SourceExecute(cfg: Settings, s: Source, run: seq<SourceStep>): Source
    requires SourcePossible(cfg, s, run)
    decreases |run|
  {
    if run == [] then s else SourceExecute(cfg, SourceApply(cfg, s, run[0]), run[1..])
  }

  /** The protocol state `v` is where the source would be with its windows still to come. */
  predicate Behind(cfg: Settings, v: Front, s: Source) {
    && s.front == v.(vad := Detect(cfg.vad, v.vad, v.windows).0, windows := [])
    && s.pending == Detect(cfg.vad, v.vad, v.windows).1
    && (!v.busy ==> v.windows == [])
  }

  // ---- Each step of the source is a run of the protocol ----

  lemma OneStep(cfg: Settings, v: Front, step: Step)
    requires Enabled(cfg, v, step)
    ensures Possible(cfg, v, [step]) && Execute(cfg, v, [step]) == Apply(cfg, v, step)
  {
    assert [step][1..] == [];
  }

  lemma StepThen(cfg: Settings, v: Front, step: Step, rest: seq<Step>)
    requires Enabled(cfg, v, step) && Possible(cfg, Apply(cfg, v, step), rest)
    ensures Possible(cfg, v, [step] + rest)
    ensures Execute(cfg, v, [step] + rest) == Execute(cfg, Apply(cfg, v, step), rest)
  {
    assert ([step] + rest)[1..] == rest;
  }

  lemma {:induction false} ExecuteConcat(cfg: Settings, v: Front, a: seq<Step>, b: seq<Step>)
    requires Possible(cfg, v, a) && Possible(cfg, Execute(cfg, v, a), b)
    ensures Possible(cfg, v, a + b) && Execute(cfg, v, a + b) == Execute(cfg, Execute(cfg, v, a), b)
    decreases |a|
  {
    if a == [] {
      assert a + b == b;
    } else {
      ExecuteConcat(cfg, Apply(cfg, v, a[0]), a[1..], b);
      assert (a + b)[1..] == a[1..] + b;
    }
  }

  /** A window without a signal moves the protocol closer to the source. */
  lemma SilentWindow(cfg: Settings, v: Front, s: Source)
    requires Behind(cfg, v, s) && v.busy && v.windows != [] && V.Advance(cfg.vad, v.vad, v.windows[0]).1.None?
    ensures Behind(cfg, v.HandleWindow(cfg), s) && v.HandleWindow(cfg).busy
    ensures v.HandleWindow(cfg).windows == v.windows[1..]
  {
    var next := V.Advance(cfg.vad, v.vad, v.windows[0]).0;
    var later := Detect(cfg.vad, next, v.windows[1..]).1;
    assert [] + later == later;
  }

  lemma SignalWindow(cfg: Settings, v: Front, s: Source)
    requires Behind(cfg, v, s) && v.busy && v.windows != [] && V.Advance(cfg.vad, v.vad, v.windows[0]).1.Some?
    ensures SourceEnabled(cfg, s, NextSignal)
    ensures Behind(cfg, v.HandleWindow(cfg), SourceApply(cfg, s, NextSignal))
  {
    var (next, signal) := V.Advance(cfg.vad, v.vad, v.windows[0]);
    var (end, later) := Detect(cfg.vad, next, v.windows[1..]);
    assert ([signal.value] + later)[1..] == later;
    HandlersIgnoreVad(cfg, v, signal.value, next, v.windows[1..]);
    HandlersIgnoreVad(cfg, v, signal.value, end, []);
    BusyStays(cfg, v, signal.value);
  }

  lemma BusyStays(cfg: Settings, f: Front, signal: V.Signal)
    ensures Aside(f, f.HandleSignal(cfg, signal))
  {
    if signal.Stopped? && !cfg.semantic {
      StopAside(f, signal.sample, None);
    }
  }

  /** Handling the next signal is a run of window steps. */
  lemma {:induction false} SignalIsRun(cfg: Settings, v: Front, s: Source) returns (steps: seq<Step>)
    requires Behind(cfg, v, s) && SourceEnabled(cfg, s, NextSignal)
    ensures Possible(cfg, v, steps) && Behind(cfg, Execute(cfg, v, steps), SourceApply(cfg, s, NextSignal))
    decreases |v.windows|
  {
    assert v.windows != [];
    OneStep(cfg, v, NextWindow);
    if V.Advance(cfg.vad, v.vad, v.windows[0]).1.Some? {
      SignalWindow(cfg, v, s);
      steps := [NextWindow];
    } else {
      SilentWindow(cfg, v, s);
      var rest := SignalIsRun(cfg, v.HandleWindow(cfg), s);
      steps := [NextWindow] + rest;
      StepThen(cfg, v, NextWindow, rest);
    }
  }

  /** Ending a payload is a run over the windows left, then the end. */
  lemma {:induction false} DoneIsRun(cfg: Settings, v: Front, s: Source) returns (steps: seq<Step>)
    requires Behind(cfg, v, s) && SourceEnabled(cfg, s, Done)
    ensures Possible(cfg, v, steps) && Behind(cfg, Execute(cfg, v, steps), SourceApply(cfg, s, Done))
    decreases |v.windows|
  {
    if v.windows == [] {
      OneStep(cfg, v, Received);
      steps := [Received];
    } else {
      SilentWindow(cfg, v, s);
      var rest := DoneIsRun(cfg, v.HandleWindow(cfg), s);
      steps := [NextWindow] + rest;
      StepThen(cfg, v, NextWindow, rest);
    }
  }

  lemma SharedIsRun(cfg: Settings, v: Front, s: Source, step: Step)
    requires Behind(cfg, v, s) && SourceEnabled(cfg, s, Other(step))
    ensures Enabled(cfg, v, step) && Behind(cfg, Apply(cfg, v, step), SourceApply(cfg, s, Other(step)))
  {
    var end := Detect(cfg.vad, v.vad, v.windows).0;
    match step
    case Decide(c, complete) =>
      VerdictsIgnoreVad(v, c, complete, end, []);
      LateKeeps(v, c, complete);
    case Timeout(c) =>
      FallbacksIgnoreVad(v, c, end, []);
      LateKeeps(v, c, true);
    case CommitAudio => assert s.front == v;
    case ClearAudio => assert s.front == v;
    case _ =>
  }

  /** What the handlers below leave alone. */
  predicate Aside(f: Front, f': Front) {
    f'.busy == f.busy && f'.vad == f.vad && f'.windows == f.windows && f'.buffer.end == f.buffer.end
  }

  lemma StopAside(f: Front, sample: nat, cause: Option<nat>)
    ensures Aside(f, f.SpeechStopped(sample, cause))
  {
  }

  lemma LateKeeps(f: Front, c: Candidate, complete: bool)
    ensures Aside(f, f.Verdict(c, complete)) && Aside(f, f.Fallback(c))
  {
    var next := f.(candidates := f.candidates - {c});
    StopAside(next, c.sample, Some(c.id));
    StopAside(next.(incomplete := f.incomplete + 1), c.sample, Some(c.id));
    StopAside(f.(fallbacks := f.fallbacks - {c}), c.sample, Some(c.id));
  }

  lemma StepIsRun(cfg: Settings, v: Front, s: Source, step: SourceStep) returns (steps: seq<Step>)
    requires Behind(cfg, v, s) && SourceEnabled(cfg, s, step)
    ensures Possible(cfg, v, steps) && Behind(cfg, Execute(cfg, v, steps), SourceApply(cfg, s, step))
  {
    match step
    case Payload(payload, flags) =>
      assert s.front == v;
      steps := [Receive(payload, flags)];
      OneStep(cfg, v, Receive(payload, flags));
    case NextSignal => steps := SignalIsRun(cfg, v, s);
    case Done => steps := DoneIsRun(cfg, v, s);
    case Other(other) =>
      SharedIsRun(cfg, v, s, other);
      steps := [other];
      OneStep(cfg, v, other);
  }

  /** Every run of the source, whatever verdicts and fallbacks fall between its signals, is a run of the protocol. */
  lemma {:induction false} SourceRunsAreProtocolRuns(cfg: Settings, v: Front, s: Source, run: seq<SourceStep>)
    returns (steps: seq<Step>)
    requires Behind(cfg, v, s) && SourcePossible(cfg, s, run)
    ensures Possible(cfg, v, steps) && Behind(cfg, Execute(cfg, v, steps), SourceExecute(cfg, s, run))
    decreases |run|
  {
    if run == [] {
      steps := [];
    } else {
      var first := StepIsRun(cfg, v, s, run[0]);
      var next := SourceApply(cfg, s, run[0]);
      var rest := SourceRunsAreProtocolRuns(cfg, Execute(cfg, v, first), next, run[1..]);
      steps := first + rest;
      ExecuteConcat(cfg, v, first, rest);
    }
  }

  const AT_REST := Source(INITIAL, [])

  /** Hence it never leaves the buffer, and its turns are ordered, disjoint stretches of the stream. */
  lemma SourceIsSafe(cfg: Settings, run: seq<SourceStep>)
    requires SourcePossible(cfg, AT_REST, run)
    ensures var f := SourceExecute(cfg, AT_REST, run).front;
            && !f.fault
            && (forall i :: 0 <= i < |f.committed| ==> T.TurnOk(f.stream, f.committed[i]))
            && (forall i, j :: 0 <= i < j < |f.committed| ==>
                  T.Hi(f.committed[i]) <= T.Lo(f.committed[j]) && f.committed[i].revision < f.committed[j].revision)
  {
    var steps := SourceRunsAreProtocolRuns(cfg, INITIAL, AT_REST, run);
    T.NeverOutsideBuffer(cfg, steps);
    T.TurnsPartitionTheStream(cfg, steps);
  }

  // ---- The invariant of the class ----

  ghost predicate Matches(cfg: Settings, v: Front, s: Source) {
    T.Inv(cfg, v) && Behind(cfg, v, s)
  }

  /** Some state of the protocol that keeps its invariant stands behind the source. */
  ghost predicate Consistent(cfg: Settings, s: Source) {
    exists v :: Matches(cfg, v, s)
  }

  lemma RestIsConsistent(cfg: Settings)
    ensures Consistent(cfg, AT_REST)
  {
    T.InitialInv(cfg);
    assert Matches(cfg, INITIAL, AT_REST);
  }

  lemma StepKeepsConsistent(cfg: Settings, s: Source, step: SourceStep)
    requires Consistent(cfg, s) && SourceEnabled(cfg, s, step)
    ensures Consistent(cfg, SourceApply(cfg, s, step)) && !SourceApply(cfg, s, step).front.fault
  {
    var v :| Matches(cfg, v, s);
    var steps := StepIsRun(cfg, v, s, step);
    T.RunKeepsInv(cfg, v, steps);
    assert Matches(cfg, Execute(cfg, v, steps), SourceApply(cfg, s, step));
  }

  lemma ConsistentBuffer(cfg: Settings, s: Source)
    requires Consistent(cfg, s)
    ensures s.front.buffer.Valid()
  {
    var v :| Matches(cfg, v, s);
  }

  lemma {:induction false} SpeechCounts(d: S.Detector, s: S.Stream)
    ensures V.WINDOW_BYTES * |Speech(d, s)| <= |s.remainder| < V.WINDOW_BYTES * (|Speech(d, s)| + 1)
    decreases |s.remainder|
  {
    if |s.remainder| < V.WINDOW_BYTES {
    } else {
      SpeechCounts(d, S.Step(d, s).0);
    }
  }

  /** The detector has seen every sample of the buffer but those of its remainder. */
  predicate Level(f: Front, s: S.Stream) {
    f.vad == s.state && 2 * s.state.processed + |s.remainder| == 2 * f.buffer.end && |s.remainder| < V.WINDOW_BYTES
  }

  lemma PayloadFits(cfg: Settings, d: S.Detector, s: S.Stream, f: Front, payload: seq<byte>, fed: S.Stream)
    requires !f.busy && Level(f, s) && fed == s.(remainder := s.remainder + payload)
    requires |payload| % 2 == 0 && |f.buffer.data| + |payload| <= cfg.maxBytes
    ensures Enabled(cfg, f, Receive(payload, Speech(d, fed)))
  {
    SpeechCounts(d, fed);
  }

  class TurnFrontEnd {
    const cfg: Settings
    const buffer: BoundedAudioBuffer
    const vad: S.SessionVad
    var speechStart: Option<nat>
    var turnId: Option<nat>
    var turns: nat
    var revision: int
    var candidateId: nat
    var incomplete: nat
    var candidates: set<Candidate>
    var fallbacks: set<Candidate>
    var completed: Option<(nat, int)>
    var committed: seq<Turn>
    var base: nat
    var pending: seq<V.Signal>
    var busy: bool
    ghost var stream: seq<byte>

    ghost function Front(): Front
      reads this, buffer, vad
    {
      TurnProtocol.Front.Front(stream, base, buffer.View(), vad.Machine(), [], busy, speechStart, turnId, turns,
                               revision, candidateId, incomplete, candidates, fallbacks, completed, committed, false)
    }

    ghost function View(): Source
      reads this, buffer, vad
    {
      Source(Front(), pending)
    }

    ghost predicate Valid()
      reads this, buffer, vad
    {
      && Consistent(cfg, View()) && Level(Front(), vad.View())
      && cfg.vad == vad.detector.config && cfg.maxBytes == buffer.maxBytes
    }

    constructor (cfg: Settings, seconds: nat, detector: S.Detector)
      requires cfg.vad == detector.config && cfg.maxBytes == seconds * 16_000 * 2
      ensures Valid() && View() == AT_REST && this.cfg == cfg && vad.detector == detector
      ensures fresh(buffer) && fresh(vad)
    {
      this.cfg := cfg;
      buffer := new BoundedAudioBuffer(seconds, 16_000);
      vad := new S.SessionVad(detector);
      speechStart, turnId, turns, revision, candidateId, incomplete := None, None, 0, -1, 0, 0;
      candidates, fallbacks, completed, committed := {}, {}, None, [];
      base, pending, busy, stream := 0, [], false, [];
      new;
      assert View() == AT_REST;
      RestIsConsistent(cfg);
    }

    // ---- Parts of the handlers ----

    method SpeechStarted(sample: nat)
      modifies this`incomplete, this`revision, this`turnId, this`turns, this`speechStart
      ensures Front() == old(Front()).SpeechStarted(sample)
    {
      incomplete := 0;
      revision := revision + 1;
      turnId := Some(turns);
      turns := turns + 1;
      speechStart := Some(Max(sample, buffer.firstSample));
    }

    method SpeechResumed()
      modifies this`candidateId
      ensures Front() == old(Front()).SpeechResumed()
    {
      Void();
    }

    method Void()
      modifies this`candidateId
      ensures Front() == old(Front()).Void()
    {
      candidateId := candidateId + 1;
    }

    method OpenManually()
      modifies this`revision, this`turnId, this`turns, this`speechStart
      ensures Front() == old(Front()).OpenManually()
    {
      revision := revision + 1;
      turnId := Some(turns);
      turns := turns + 1;
      speechStart := Some(buffer.firstSample);
    }

    method CompleteTurn(turn: nat, rev: int, start: nat, end: nat, cause: Option<nat>)
      returns (r: Outcome<BufferError>)
      requires buffer.View().Valid()
      modifies this`completed, this`committed, buffer
      ensures buffer.View().Valid()
      ensures r.Pass? ==> Front() == old(Front()).CompleteTurn(turn, rev, start, end, cause)
      ensures r.Raised? ==> old(Front()).CompleteTurn(turn, rev, start, end, cause).fault
    {
      if completed == Some((turn, rev)) {
        return Pass;
      }
      completed := Some((turn, rev));
      var slice := buffer.SliceSamples(start, end);
      if slice.Err? {
        return Raised(slice.error);
      }
      :- buffer.DiscardBefore(end);
      committed := committed + [Turn(turn, rev, base, start, end, slice.value, cause)];
      r := Pass;
    }

    method SpeechStopped(sample: nat, cause: Option<nat>) returns (r: Outcome<BufferError>)
      requires buffer.View().Valid()
      modifies this`speechStart, this`completed, this`committed, buffer
      ensures buffer.View().Valid()
      ensures r.Pass? ==> Front() == old(Front()).SpeechStopped(sample, cause)
      ensures r.Raised? ==> old(Front()).SpeechStopped(sample, cause).fault
    {
      if turnId.None? || speechStart.None? {
        return Pass;
      }
      var start := speechStart.value;
      speechStart := None;
      r := CompleteTurn(turnId.value, revision, start, sample, cause);
    }

    method SpeechStopCandidate(sample: nat) returns (r: Outcome<BufferError>)
      requires buffer.View().Valid()
      modifies this`speechStart, this`completed, this`committed, this`candidateId, this`candidates, buffer
      ensures buffer.View().Valid()
      ensures r.Pass? ==> Front() == old(Front()).StopCandidate(cfg, sample)
      ensures r.Raised? ==> old(Front()).StopCandidate(cfg, sample).fault
    {
      if !cfg.semantic {
        r := SpeechStopped(sample, None);
        return;
      }
      if turnId.None? || speechStart.None? {
        return Pass;
      }
      candidateId := candidateId + 1;
      var audio := buffer.SliceSamples(Max(speechStart.value, sample - cfg.maxSamples), sample);
      if audio.Err? {
        return Raised(audio.error);
      }
      candidates := candidates + {Candidate(candidateId, turnId.value, revision, sample, audio.value)};
      r := Pass;
    }

    method HandleSignal(signal: V.Signal) returns (r: Outcome<BufferError>)
      requires buffer.View().Valid()
      modifies this, buffer
      ensures pending == old(pending)
      ensures buffer.View().Valid()
      ensures r.Pass? ==> Front() == old(Front()).HandleSignal(cfg, signal)
      ensures r.Raised? ==> old(Front()).HandleSignal(cfg, signal).fault
    {
      r := Pass;
      match signal {
        case Started(sample) =>
          if speechStart.None? {
            SpeechStarted(sample);
          } else {
            SpeechResumed();
          }
        case Stopped(sample) =>
          r := SpeechStopCandidate(sample);
      }
    }

    /** Drops old audio while nobody speaks. */
    method TrimIdle() returns (r: Outcome<BufferError>)
      requires buffer.View().Valid()
      modifies this`busy, buffer
      ensures buffer.View().Valid()
      ensures r.Pass? ==> Front() == old(Front()).EndAppend()
      ensures r.Raised? ==> old(Front()).EndAppend().fault
    {
      busy := false;
      r := Pass;
      if speechStart.None? && |buffer.data| > TRIM_BYTES {
        r := buffer.DiscardBefore(Max(buffer.firstSample, buffer.endSample - KEEP_SAMPLES));
      }
    }

    method Conclude(c: Candidate, complete: bool) returns (r: Outcome<BufferError>)
      requires buffer.View().Valid()
      modifies this`candidates, this`fallbacks, this`incomplete, this`speechStart, this`completed, this`committed
      modifies buffer
      ensures buffer.View().Valid()
      ensures r.Pass? ==> Front() == old(Front()).Verdict(c, complete)
      ensures r.Raised? ==> old(Front()).Verdict(c, complete).fault
    {
      candidates := candidates - {c};
      if turnId != Some(c.turnId) || revision != c.revision || candidateId != c.id || speechStart.None? {
        return Pass;
      }
      if complete {
        r := SpeechStopped(c.sample, Some(c.id));
        return;
      }
      incomplete := incomplete + 1;
      if incomplete >= MAX_INCOMPLETE_VERDICTS {
        r := SpeechStopped(c.sample, Some(c.id));
        return;
      }
      fallbacks := fallbacks + {c};
      r := Pass;
    }

    method TakeFallback(c: Candidate) returns (r: Outcome<BufferError>)
      requires buffer.View().Valid()
      modifies this`fallbacks, this`speechStart, this`completed, this`committed, buffer
      ensures buffer.View().Valid()
      ensures r.Pass? ==> Front() == old(Front()).Fallback(c)
      ensures r.Raised? ==> old(Front()).Fallback(c).fault
    {
      fallbacks := fallbacks - {c};
      r := Pass;
      if turnId == Some(c.turnId) && revision == c.revision && candidateId == c.id && speechStart.Some? {
        r := SpeechStopped(c.sample, Some(c.id));
      }
    }

    /** Clears the buffer and the detector; sample indices restart at 0. */
    method Restart()
      modifies this, buffer, vad
      ensures pending == old(pending)
      ensures Front() == old(Front()).Restart() && vad.View() == S.SILENCE
    {
      base := base + buffer.endSample;
      buffer.Clear();
      vad.Reset();
    }

    method EndInput() returns (r: Outcome<BufferError>)
      requires buffer.View().Valid()
      modifies this, buffer, vad
      ensures pending == old(pending)
      ensures buffer.View().Valid()
      ensures r.Pass? ==> Front() == old(Front()).EndInput()
      ensures r.Pass? ==> vad.View() == S.SILENCE && buffer.View() == EMPTY
      ensures r.Raised? ==> old(Front()).EndInput().fault
    {
      r := Pass;
      :- SpeechStopped(buffer.endSample, None);
      Restart();
    }

    method CommitInput() returns (r: Outcome<BufferError>)
      requires buffer.View().Valid()
      modifies this, buffer, vad
      ensures pending == old(pending)
      ensures buffer.View().Valid()
      ensures r.Pass? ==> Front() == old(Front()).Commit()
      ensures r.Pass? ==> (vad.View() == S.SILENCE && buffer.View() == EMPTY)
                          || (vad.View() == old(vad.View()) && buffer.View() == old(buffer.View()))
      ensures r.Raised? ==> old(Front()).Commit().fault
    {
      Void();
      if speechStart.Some? {
        r := EndInput();
        return;
      }
      if |buffer.data| == 0 {
        return Pass;
      }
      OpenManually();
      r := EndInput();
    }

    // ---- Handlers ----

    /** The beginning of a payload: buffer it and run the detector over it. */
    method BeginAppend(payload: seq<byte>) returns (r: Outcome<BufferError>)
      requires Valid() && !busy
      modifies this, buffer, vad
      ensures Valid()
      ensures r == if |payload| % 2 == 1 then Raised(OddPayload)
                   else if old(|buffer.data|) + |payload| > buffer.maxBytes then Raised(Overflow) else Pass
      ensures r.Raised? ==> View() == old(View())
      ensures r.Pass? ==>
                var fed := old(vad.View()).(remainder := old(vad.View()).remainder + payload);
                var step := Payload(payload, Speech(vad.detector, fed));
                && SourceEnabled(cfg, old(View()), step) && View() == SourceApply(cfg, old(View()), step)
                && vad.View() == S.Feed(vad.detector, old(vad.View()), payload).0
    {
      ghost var was, d := vad.View(), vad.detector;
      ghost var fed := was.(remainder := was.remainder + payload);
      r := buffer.Append(payload);
      if r.Raised? {
        return;
      }
      assert r.Pass?;
      ghost var step := Payload(payload, Speech(d, fed));
      PayloadFits(cfg, d, was, old(Front()), payload, fed);
      ghost var next := SourceApply(cfg, old(View()), step);
      StepKeepsConsistent(cfg, old(View()), step);
      DetectIsDrain(d, fed);
      S.BytesAccounted(d, was, payload);
      stream, busy := stream + payload, true;
      var signals := vad.ProcessPcm16(payload);
      pending := signals.value;
      assert View() == next;
    }

    method HandleNext()
      requires Valid() && busy && pending != []
      modifies this, buffer
      ensures Valid() && busy && View() == SourceApply(cfg, old(View()), NextSignal)
    {
      ghost var next := SourceApply(cfg, View(), NextSignal);
      StepKeepsConsistent(cfg, View(), NextSignal);
      BusyStays(cfg, Front(), pending[0]);
      ConsistentBuffer(cfg, View());
      var signal := pending[0];
      pending := pending[1..];
      var r := HandleSignal(signal);
      assert r.Pass? && View() == next;
    }

    method EndAppend()
      requires Valid() && busy && pending == []
      modifies this, buffer
      ensures Valid() && !busy && View() == SourceApply(cfg, old(View()), Done)
    {
      ghost var next := SourceApply(cfg, View(), Done);
      StepKeepsConsistent(cfg, View(), Done);
      ConsistentBuffer(cfg, View());
      var r := TrimIdle();
      assert r.Pass? && View() == next;
    }

    /** The whole handler when nothing comes in between: the payload window by window. */
    method AppendAudio(payload: seq<byte>) returns (r: Outcome<BufferError>)
      requires Valid() && !busy
      modifies this, buffer, vad
      ensures Valid() && !busy
      ensures r == if |payload| % 2 == 1 then Raised(OddPayload)
                   else if old(|buffer.data|) + |payload| > buffer.maxBytes then Raised(Overflow) else Pass
      ensures var was := old(vad.View());
              var fed := was.(remainder := was.remainder + payload);
              var appended := old(Front()).Append(payload, Speech(vad.detector, fed));
              View() == if r.Pass? then Source(HandleWindows(cfg, appended).EndAppend(), []) else old(View())
    {
      ghost var was := vad.View();
      ghost var fed := was.(remainder := was.remainder + payload);
      ghost var appended := Front().Append(payload, Speech(vad.detector, fed));
      r := BeginAppend(payload);
      if r.Raised? {
        return;
      }
      ghost var (after, signals) := S.Drain(vad.detector, fed);
      DetectIsDrain(vad.detector, fed);
      assert View() == Source(appended.(vad := after.state, windows := []), signals);
      PayloadIsWindows(cfg, vad.detector, fed, appended);
      HandlePending();
      EndAppend();
    }

    method HandlePending()
      requires Valid() && busy
      modifies this, buffer
      ensures Valid() && busy && View() == Source(HandleAll(cfg, old(Front()), old(pending)), [])
    {
      ghost var whole := HandleAll(cfg, Front(), pending);
      while pending != []
        invariant Valid() && busy && HandleAll(cfg, Front(), pending) == whole
        decreases |pending|
      {
        HandleNext();
      }
    }

    /** A verdict may come at any time, also between the signals of a payload. */
    method OnVerdict(c: Candidate, complete: bool)
      requires Valid() && c in candidates
      modifies this, buffer
      ensures Valid() && View() == old(View()).(front := old(Front()).Verdict(c, complete))
    {
      ghost var next := SourceApply(cfg, View(), Other(Decide(c, complete)));
      StepKeepsConsistent(cfg, View(), Other(Decide(c, complete)));
      LateKeeps(Front(), c, complete);
      ConsistentBuffer(cfg, View());
      var r := Conclude(c, complete);
      assert r.Pass? && View() == next;
    }

    method OnFallback(c: Candidate)
      requires Valid() && c in fallbacks
      modifies this, buffer
      ensures Valid() && View() == old(View()).(front := old(Front()).Fallback(c))
    {
      ghost var next := SourceApply(cfg, View(), Other(Timeout(c)));
      StepKeepsConsistent(cfg, View(), Other(Timeout(c)));
      LateKeeps(Front(), c, true);
      ConsistentBuffer(cfg, View());
      var r := TakeFallback(c);
      assert r.Pass? && View() == next;
    }

    method CommitAudio()
      requires Valid() && !busy
      modifies this, buffer, vad
      ensures Valid() && View() == old(View()).(front := old(Front()).Commit())
    {
      ghost var next := SourceApply(cfg, View(), Other(Step.CommitAudio));
      StepKeepsConsistent(cfg, View(), Other(Step.CommitAudio));
      ConsistentBuffer(cfg, View());
      var r := CommitInput();
      assert r.Pass? && View() == next;
    }

    method ClearAudio()
      requires Valid() && !busy
      modifies this, buffer, vad
      ensures Valid() && View() == old(View()).(front := old(Front()).Clear())
    {
      ghost var next := SourceApply(cfg, View(), Other(Step.ClearAudio));
      StepKeepsConsistent(cfg, View(), Other(Step.ClearAudio));
      Void();
      Restart();
      turnId := None;
      speechStart := None;
      assert View() == next;
    }

    /** A response asks for a turn when none is known. */
    method AssignTurn()
      requires Valid()
      modifies this`revision, this`turnId, this`turns
      ensures Valid() && View() == old(View()).(front := old(Front()).AssignTurn())
    {
      ghost var next := SourceApply(cfg, View(), Other(NeedTurn));
      StepKeepsConsistent(cfg, View(), Other(NeedTurn));
      if turnId.None? {
        revision := revision + 1;
        turnId := Some(turns);
        turns := turns + 1;
      }
      assert View() == next;
    }
  }
}
