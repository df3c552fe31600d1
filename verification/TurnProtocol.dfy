/**
 The turn front end of one session: audio buffer, voice activity and semantic turn
 detection (pipeline.py, `_append_audio` to `_complete_turn`, `_commit_audio`,
 `_clear_audio`).

 One step is one handler up to its next suspension. The event consumer handles one
 client event at a time; verdicts of the turn classifier and fallback timers interleave
 with it anywhere. A classifier task that was cancelled may still deliver its verdict
 in this model, which only adds interleavings.

 The signals of one payload are handled window by window here. The source computes them
 first and handles them afterwards; `PayloadIsWindows` in TurnFrontEnd.dfy shows that
 the two orders agree, because no handler reads the voice activity state.
 */
module TurnProtocol {
  import opened Options
  import opened AudioBuffers
  import V = SileroVad

  const MAX_INCOMPLETE_VERDICTS: nat := 2
  const TRIM_BYTES: nat := 64_000
  const KEEP_SAMPLES: nat := 32_000

  function Max(a: int, b: int): int {
    if a < b then b else a
  }

  datatype Settings = Settings(vad: V.Config, semantic: bool, maxSamples: nat, maxBytes: nat)

  /** A stop of speech that waits for a verdict or for its fallback timer; the classifier hears `audio`. */
  datatype Candidate = Candidate(id: nat, turnId: nat, revision: int, sample: nat, audio: seq<byte>)

  /** A committed turn. `base` is the stream position of sample 0 at the time; `cause` names the candidate. */
  datatype Turn = Turn(
    turnId: nat,
    revision: int,
    base: nat,
    start: nat,
    end: nat,
    audio: seq<byte>,
    cause: Option<nat>)

  datatype Front = Front(
    stream: seq<byte>,  // every accepted input byte of the session
    base: nat,          // samples received before the indices last restarted at 0
    buffer: Window,
    vad: V.State,
    windows: seq<bool>, // speech flags of the current payload, not yet handled
    busy: bool,         // the consumer is inside `_append_audio`
    speechStart: Option<nat>,
    turnId: Option<nat>,
    turns: nat,
    revision: int,
    candidateId: nat,
    incomplete: nat,
    candidates: set<Candidate>,
    fallbacks: set<Candidate>,
    completed: Option<(nat, int)>,
    committed: seq<Turn>,
    fault: bool)        // some slice or discard was outside the buffer
  {
    function SpeechStarted(sample: nat): Front {
      this.(incomplete := 0,
            revision := revision + 1, turnId := Some(turns), turns := turns + 1,
            speechStart := Some(Max(sample, buffer.first)))
    }

    function SpeechResumed(): Front {
      this.(candidateId := candidateId + 1)
    }

    function CompleteTurn(turn: nat, rev: int, start: nat, end: nat, cause: Option<nat>): Front {
      if completed == Some((turn, rev)) then this
      else
        var marked := this.(completed := Some((turn, rev)));
        if !buffer.Valid() || !buffer.Holds(start, end) then marked.(fault := true)
        else
          marked.(buffer := buffer.DiscardBefore(end),
                  committed := committed + [Turn(turn, rev, base, start, end, buffer.Slice(start, end), cause)])
    }

    function SpeechStopped(sample: nat, cause: Option<nat>): Front {
      if turnId.None? || speechStart.None? then this
      else this.(speechStart := None).CompleteTurn(turnId.value, revision, speechStart.value, sample, cause)
    }

    function StopCandidate(cfg: Settings, sample: nat): Front {
      if !cfg.semantic then SpeechStopped(sample, None)
      else if turnId.None? || speechStart.None? then this
      else
        var next := this.(candidateId := candidateId + 1);
        var from := Max(speechStart.value, sample - cfg.maxSamples);
        if !buffer.Valid() || !buffer.Holds(from, sample) then next.(fault := true)
        else
          var audio := buffer.Slice(from, sample);
          next.(candidates := candidates + {Candidate(candidateId + 1, turnId.value, revision, sample, audio)})
    }

    predicate IsFresh(c: Candidate) {
      turnId == Some(c.turnId) && revision == c.revision && candidateId == c.id && speechStart.Some?
    }

    function Append(payload: seq<byte>, flags: seq<bool>): Front {
      this.(stream := stream + payload, buffer := buffer.Append(payload), windows := flags, busy := true)
    }

    function HandleSignal(cfg: Settings, signal: V.Signal): Front {
      match signal
      case Started(sample) => if speechStart.None? then SpeechStarted(sample) else SpeechResumed()
      case Stopped(sample) => StopCandidate(cfg, sample)
    }

    function HandleWindow(cfg: Settings): Front
      requires windows != []
    {
      var (vad', signal) := V.Advance(cfg.vad, vad, windows[0]);
      var next := this.(vad := vad', windows := windows[1..]);
      if signal.Some? then next.HandleSignal(cfg, signal.value) else next
    }

    function EndAppend(): Front {
      if speechStart.None? && |buffer.data| > TRIM_BYTES then
        var keep := Max(buffer.first, buffer.end - KEEP_SAMPLES);
        if buffer.Valid() && buffer.Holds(keep, buffer.end)
        then this.(busy := false, buffer := buffer.DiscardBefore(keep))
        else this.(busy := false, fault := true)
      else this.(busy := false)
    }

    function Verdict(c: Candidate, complete: bool): Front {
      var next := this.(candidates := candidates - {c});
      if !IsFresh(c) then next
      else if complete then next.SpeechStopped(c.sample, Some(c.id))
      else
        var counted := next.(incomplete := incomplete + 1);
        if counted.incomplete >= MAX_INCOMPLETE_VERDICTS then counted.SpeechStopped(c.sample, Some(c.id))
        else counted.(fallbacks := fallbacks + {c})
    }

    function Fallback(c: Candidate): Front {
      var next := this.(fallbacks := fallbacks - {c});
      if IsFresh(c) then next.SpeechStopped(c.sample, Some(c.id)) else next
    }

    /** Sample indices restart at 0. */
    function Restart(): Front {
      this.(base := base + buffer.end, buffer := EMPTY, vad := V.FRESH)
    }

    /** Every candidate so far is void. */
    function Void(): Front {
      this.(candidateId := candidateId + 1)
    }

    /** Ends the open utterance with the buffer. */
    function EndInput(): Front {
      SpeechStopped(buffer.end, None).Restart()
    }

    /** Opens an utterance that covers the buffer, without voice activity. */
    function OpenManually(): Front {
      this.(revision := revision + 1, turnId := Some(turns), turns := turns + 1, speechStart := Some(buffer.first))
    }

    function Commit(): Front {
      if speechStart.Some? then Void().EndInput()
      else if |buffer.data| == 0 then Void()
      else Void().OpenManually().EndInput()
    }

    function Clear(): Front {
      Void().Restart().(turnId := None, speechStart := None)
    }

    /** A response asks for a turn when none is known. */
    function AssignTurn(): Front {
      if turnId.Some? then this else this.(revision := revision + 1, turnId := Some(turns), turns := turns + 1)
    }
  }

  const INITIAL := Front([], 0, EMPTY, V.FRESH, [], false, None, None, 0, -1, 0, 0, {}, {}, None, [], false)

  datatype Step =
    | Receive(payload: seq<byte>, flags: seq<bool>)
    | NextWindow
    | Received
    | Decide(candidate: Candidate, complete: bool)
    | Timeout(candidate: Candidate)
    | CommitAudio
    | ClearAudio
    | NeedTurn

  predicate Enabled(cfg: Settings, f: Front, step: Step) {
    match step
    case Receive(payload, flags) =>
      && !f.busy && |payload| % 2 == 0 && |f.buffer.data| + |payload| <= cfg.maxBytes
      && f.vad.processed + V.WINDOW * |flags| <= f.buffer.end + |payload| / 2
      && f.buffer.end + |payload| / 2 < f.vad.processed + V.WINDOW * (|flags| + 1)
    case NextWindow => f.busy && f.windows != []
    case Received => f.busy && f.windows == []
    case Decide(c, _) => c in f.candidates
    case Timeout(c) => c in f.fallbacks
    case CommitAudio => !f.busy
    case ClearAudio => !f.busy
    case NeedTurn => true
  }

  function Apply(cfg: Settings, f: Front, step: Step): Front
    requires Enabled(cfg, f, step)
  {
    match step
    case Receive(payload, flags) => f.Append(payload, flags)
    case NextWindow => f.HandleWindow(cfg)
    case Received => f.EndAppend()
    case Decide(c, complete) => f.Verdict(c, complete)
    case Timeout(c) => f.Fallback(c)
    case CommitAudio => f.Commit()
    case ClearAudio => f.Clear()
    case NeedTurn => f.AssignTurn()
  }

  predicate Possible(cfg: Settings, f: Front, steps: seq<Step>)
    decreases |steps|
  {
    steps != [] ==> Enabled(cfg, f, steps[0]) && Possible(cfg, Apply(cfg, f, steps[0]), steps[1..])
  }

  function Execute(cfg: Settings, f: Front, steps: seq<Step>): Front
    requires Possible(cfg, f, steps)
    decreases |steps|
  {
    if steps == [] then f else Execute(cfg, Apply(cfg, f, steps[0]), steps[1..])
  }
}
