/**
 Feeding PCM audio to the voice activity state machine (runtimes/silero.py, SessionVAD).

 Main results: how the audio is cut into payloads does not matter, every byte is either
 processed or kept in a remainder below one window, and the signals of any sequence of
 payloads are those of the declarative reading in `SileroVad`.
 */
module SessionVads {
  import opened Options
  import opened SileroVad

  type Probability = p: real | 0.0 <= p <= 1.0 witness 0.0

  /** The stateful network: its answer depends on every window since its last reset. */
  type Model = seq<seq<byte>> -> Probability

  datatype Detector = Detector(config: Config, threshold: real, model: Model)

  /** `heard` is what the network has been given since its last reset. */
  datatype Stream = Stream(state: State, remainder: seq<byte>, heard: seq<seq<byte>>)

  const SILENCE := Stream(FRESH, [], [])

  function IsSpeech(d: Detector, heard: seq<seq<byte>>): bool {
    d.model(heard) >= d.threshold
  }

  function Step(d: Detector, s: Stream): (Stream, Option<Signal>)
    requires |s.remainder| >= WINDOW_BYTES
  {
    var heard := s.heard + [s.remainder[..WINDOW_BYTES]];
    var (state, signal) := Advance(d.config, s.state, IsSpeech(d, heard));
    (Stream(state, s.remainder[WINDOW_BYTES..], heard), signal)
  }

  function Drain(d: Detector, s: Stream): (Stream, seq<Signal>)
    decreases |s.remainder|
  {
    if |s.remainder| < WINDOW_BYTES then (s, [])
    else
      var (next, signal) := Step(d, s);
      var (end, signals) := Drain(d, next);
      (end, (if signal.Some? then [signal.value] else []) + signals)
  }

  function Feed(d: Detector, s: Stream, payload: seq<byte>): (Stream, seq<Signal>) {
    Drain(d, s.(remainder := s.remainder + payload))
  }

  /** Processing a and then b is processing their concatenation. */
  lemma {:induction false} FramingIsIrrelevant(d: Detector, s: Stream, a: seq<byte>, b: seq<byte>)
    ensures var (afterA, signalsA) := Feed(d, s, a);
            var (afterB, signalsB) := Feed(d, afterA, b);
            Feed(d, s, a + b) == (afterB, signalsA + signalsB)
    decreases |s.remainder| + |a|
  {
    var joined := s.(remainder := s.remainder + a);
    assert s.remainder + (a + b) == joined.remainder + b;
    if |joined.remainder| < WINDOW_BYTES {
      var signals := Feed(d, joined, b).1;
      assert [] + signals == signals;
    } else {
      var (next, signal) := Step(d, joined);
      var whole := s.(remainder := joined.remainder + b);
      assert whole.remainder[..WINDOW_BYTES] == joined.remainder[..WINDOW_BYTES];
      assert whole.remainder[WINDOW_BYTES..] == next.remainder + b;
      assert next.(remainder := next.remainder + []) == next;
      FramingIsIrrelevant(d, next, [], b);
      assert [] + b == b;
      assert Step(d, whole) == (next.(remainder := next.remainder + b), signal);
      var (afterA, later) := Drain(d, next);
      var now := if signal.Some? then [signal.value] else [];
      assert now + (later + Feed(d, afterA, b).1) == (now + later) + Feed(d, afterA, b).1;
    }
  }

  /** Twice the processed samples plus the remainder is what was received. */
  lemma {:induction false} BytesAccounted(d: Detector, s: Stream, payload: seq<byte>)
    ensures var after := Feed(d, s, payload).0;
            && 2 * after.state.processed + |after.remainder| == 2 * s.state.processed + |s.remainder| + |payload|
            && |after.remainder| < WINDOW_BYTES
    decreases |s.remainder| + |payload|
  {
    var joined := s.(remainder := s.remainder + payload);
    if |joined.remainder| < WINDOW_BYTES {
    } else {
      var next := Step(d, joined).0;
      assert next.remainder + [] == next.remainder;
      BytesAccounted(d, next, []);
    }
  }

  // ---- The stream runs the specified machine ----

  function Flags(d: Detector, heard: seq<seq<byte>>): seq<bool> {
    seq(|heard|, i requires 0 <= i < |heard| => IsSpeech(d, heard[..i + 1]))
  }

  predicate Consistent(d: Detector, s: Stream) {
    s.state == RunTo(d.config, Flags(d, s.heard), |s.heard|).0
  }

  lemma {:induction false} RunPrefix(c: Config, h: seq<bool>, more: seq<bool>, n: nat)
    requires n <= |h| && h <= more
    ensures RunTo(c, h, n) == RunTo(c, more, n)
  {
    if n == 0 {
    } else {
      RunPrefix(c, h, more, n - 1);
    }
  }

  lemma StepRuns(d: Detector, s: Stream)
    requires Consistent(d, s) && |s.remainder| >= WINDOW_BYTES
    ensures var (next, signal) := Step(d, s);
            && Consistent(d, next)
            && RunTo(d.config, Flags(d, next.heard), |next.heard|).1 ==
               RunTo(d.config, Flags(d, s.heard), |s.heard|).1 + (if signal.Some? then [signal.value] else [])
  {
    var next := Step(d, s).0;
    forall i | 0 <= i < |s.heard|
      ensures Flags(d, next.heard)[i] == Flags(d, s.heard)[i]
    {
      assert next.heard[..i + 1] == s.heard[..i + 1];
    }
    assert next.heard[..|s.heard| + 1] == next.heard;
    RunPrefix(d.config, Flags(d, s.heard), Flags(d, next.heard), |s.heard|);
  }

  /** The signals of a payload continue the signals of the window history. */
  lemma {:induction false} DrainRuns(d: Detector, s: Stream)
    requires Consistent(d, s)
    ensures var (end, signals) := Drain(d, s);
            && Consistent(d, end)
            && RunTo(d.config, Flags(d, end.heard), |end.heard|).1 ==
               RunTo(d.config, Flags(d, s.heard), |s.heard|).1 + signals
    decreases |s.remainder|
  {
    if |s.remainder| < WINDOW_BYTES {
    } else {
      var (next, signal) := Step(d, s);
      StepRuns(d, s);
      DrainRuns(d, next);
      JoinSignals(RunTo(d.config, Flags(d, s.heard), |s.heard|).1,
                  RunTo(d.config, Flags(d, next.heard), |next.heard|).1,
                  if signal.Some? then [signal.value] else [], Drain(d, next).1);
    }
  }

  lemma JoinSignals(before: seq<Signal>, between: seq<Signal>, now: seq<Signal>, later: seq<Signal>)
    requires between == before + now
    ensures between + later == before + (now + later)
  {
  }

  function Flat(windows: seq<seq<byte>>): seq<byte> {
    if windows == [] then [] else Flat(windows[..|windows| - 1]) + windows[|windows| - 1]
  }

  predicate AllWindows(windows: seq<seq<byte>>) {
    forall i :: 0 <= i < |windows| ==> |windows[i]| == WINDOW_BYTES
  }

  /** The network hears whole windows, which are the received bytes in order. */
  lemma {:induction false} DrainHears(d: Detector, s: Stream)
    requires AllWindows(s.heard)
    ensures var end := Drain(d, s).0;
            && AllWindows(end.heard) && |end.remainder| < WINDOW_BYTES
            && Flat(end.heard) + end.remainder == Flat(s.heard) + s.remainder
    decreases |s.remainder|
  {
    if |s.remainder| < WINDOW_BYTES {
    } else {
      var next := Step(d, s).0;
      var window := s.remainder[..WINDOW_BYTES];
      assert next.heard[..|s.heard|] == s.heard && s.remainder == window + next.remainder;
      assert Flat(next.heard) == Flat(s.heard) + window;
      assert (Flat(s.heard) + window) + next.remainder == Flat(s.heard) + s.remainder;
      DrainHears(d, next);
    }
  }

  /** A window counts as speech exactly when the network's answer, after all windows so far, reaches the threshold. */
  predicate Judged(d: Detector, heard: seq<seq<byte>>, h: seq<bool>) {
    |h| == |heard| && forall i :: 0 <= i < |h| ==> (h[i] <==> d.model(heard[..i + 1]) >= d.threshold)
  }

  /**
   After any payloads the signals so far are exactly those of the segmented history of
   their windows, each judged by the network and the threshold.
   */
  lemma StreamMeetsSpecification(d: Detector, payload: seq<byte>)
    returns (h: seq<bool>, segments: seq<Segment>, open: Option<(nat, nat)>)
    ensures var (after, signals) := Feed(d, SILENCE, payload);
            && Judged(d, after.heard, h)
            && AllWindows(after.heard) && Flat(after.heard) + after.remainder == payload
            && |after.remainder| < 1024
            && Segmented(d.config, h, segments) && Complete(d.config, h, segments, open, |h|)
            && signals == AllSignals(d.config, segments, open)
  {
    assert [] + payload == payload;
    DrainRuns(d, SILENCE.(remainder := payload));
    DrainHears(d, SILENCE.(remainder := payload));
    var (after, signals) := Feed(d, SILENCE, payload);
    h := Flags(d, after.heard);
    segments, open := MeetsSpecification(d.config, h, |after.heard|);
  }

  datatype VadError = IncompleteSample

  class SessionVad {
    const detector: Detector
    var remainder: seq<byte>
    var heard: seq<seq<byte>>
    var processedSamples: nat
    var candidateStart: Option<nat>
    var candidateSilenceStart: Option<nat>
    var speechStart: Option<nat>
    var silenceStart: Option<nat>

    function Machine(): State
      reads this
    {
      State(processedSamples, candidateStart, candidateSilenceStart, speechStart, silenceStart)
    }

    function View(): Stream
      reads this
    {
      Stream(Machine(), remainder, heard)
    }

    constructor (detector: Detector)
      ensures this.detector == detector && View() == SILENCE
    {
      this.detector := detector;
      remainder, heard, processedSamples := [], [], 0;
      candidateStart, candidateSilenceStart, speechStart, silenceStart := None, None, None, None;
    }

    method ProcessPcm16(payload: seq<byte>) returns (r: Result<seq<Signal>, VadError>)
      modifies this
      ensures |payload| % 2 == 1 ==> r == Err(IncompleteSample) && View() == old(View())
      ensures |payload| % 2 == 0 ==>
                r.Ok? && (View(), r.value) == Feed(detector, old(View()), payload)
    {
      if |payload| % 2 == 1 {
        return Err(IncompleteSample);
      }
      remainder := remainder + payload;
      var signals: seq<Signal> := [];
      ghost var whole := Feed(detector, old(View()), payload);
      assert View() == old(View()).(remainder := old(remainder) + payload);
      while |remainder| >= WINDOW_BYTES
        invariant whole.0 == Drain(detector, View()).0 && whole.1 == signals + Drain(detector, View()).1
        decreases |remainder|
      {
        ghost var sofar, step := signals, Step(detector, View());
        ghost var rest := Drain(detector, step.0).1;
        var signal := ProcessWindow();
        if signal.Some? {
          signals := signals + [signal.value];
        }
        assert sofar + ((if signal.Some? then [signal.value] else []) + rest) == signals + rest;
      }
      assert signals + [] == signals;
      r := Ok(signals);
    }

    method ProcessWindow() returns (signal: Option<Signal>)
      requires |remainder| >= WINDOW_BYTES
      modifies this
      ensures (View(), signal) == Step(detector, old(View()))
    {
      var window := remainder[..WINDOW_BYTES];
      remainder := remainder[WINDOW_BYTES..];
      heard := heard + [window];
      var probability := detector.model(heard);
      signal := AdvanceWindow(probability >= detector.threshold);
      processedSamples := processedSamples + WINDOW;
    }

    method AdvanceWindow(isSpeech: bool) returns (signal: Option<Signal>)
      modifies this`candidateStart, this`candidateSilenceStart, this`speechStart, this`silenceStart
      ensures (Machine().(processed := processedSamples + WINDOW), signal) ==
              Advance(detector.config, old(Machine()), isSpeech)
    {
      var windowStart, windowEnd := processedSamples, processedSamples + WINDOW;
      signal := None;
      if speechStart.None? {
        if isSpeech {
          if candidateStart.None? {
            candidateStart := Some(windowStart);
          }
          candidateSilenceStart := None;
          if windowEnd - candidateStart.value >= detector.config.minSpeech {
            speechStart := Some(Less(candidateStart.value, detector.config.pad));
            signal := Some(Started(speechStart.value));
          }
        } else if candidateStart.Some? {
          if candidateSilenceStart.None? {
            candidateSilenceStart := Some(windowStart);
          }
          if windowEnd - candidateSilenceStart.value > detector.config.continuation {
            candidateStart := None;
            candidateSilenceStart := None;
          }
        }
        return;
      }
      if isSpeech {
        silenceStart := None;
        return;
      }
      if silenceStart.None? {
        silenceStart := Some(windowStart);
      }
      if windowEnd - silenceStart.value >= detector.config.minSilence {
        signal := Some(Stopped(Min(windowEnd, silenceStart.value + detector.config.pad)));
        ClearTurnState();
      }
    }

    method ClearTurnState()
      modifies this`candidateStart, this`candidateSilenceStart, this`speechStart, this`silenceStart
      ensures Machine() == FRESH.(processed := processedSamples)
    {
      candidateStart := None;
      candidateSilenceStart := None;
      speechStart := None;
      silenceStart := None;
    }

    method Reset()
      modifies this
      ensures View() == SILENCE
    {
      processedSamples := 0;
      remainder := [];
      ClearTurnState();
      heard := [];
    }
  }
}
