/**
 Safety of the turn front end over every run and interleaving.

 Main results: no slice or discard leaves the buffer (`NeverOutsideBuffer`), committed
 turns are disjoint stretches of the input stream in order (`TurnsPartitionTheStream`),
 a voided candidate never commits (`VoidedNeverCommits`), and an open utterance has had
 fewer than two incomplete verdicts.
 */
module TurnSafety {
  import opened Options
  import opened AudioBuffers
  import opened TurnProtocol
  import V = SileroVad

  /** No later stop of speech can be reported before this sample. */
  function Horizon(v: V.State): nat {
    if v.speechStart.Some? && v.silenceStart.Some? then v.silenceStart.value else v.processed
  }

  predicate VadOk(v: V.State) {
    && (v.candidateStart.Some? ==> v.candidateStart.value <= v.processed)
    && (v.silenceStart.Some? ==> v.silenceStart.value <= v.processed)
    && (v.speechStart.None? ==> v.silenceStart.None?)
  }

  lemma AdvanceMoves(c: V.Config, v: V.State, speech: bool)
    requires VadOk(v)
    ensures var (v', signal) := V.Advance(c, v, speech);
            && VadOk(v') && v'.processed == v.processed + V.WINDOW && Horizon(v) <= Horizon(v')
            && (signal.None? ==> v'.speechStart.Some? == v.speechStart.Some?)
            && (signal.Some? && signal.value.Started? ==>
                  v.speechStart.None? && v'.speechStart.Some? && signal.value.sample <= Horizon(v'))
            && (signal.Some? && signal.value.Stopped? ==>
                  v.speechStart.Some? && v'.speechStart.None?
                  && Horizon(v) <= signal.value.sample <= Horizon(v'))
  {
  }

  predicate Outstanding(f: Front, c: Candidate) {
    c in f.candidates || c in f.fallbacks
  }

  /** The candidate that may still end the open utterance. */
  predicate Live(f: Front, c: Candidate) {
    Outstanding(f, c) && c.id == f.candidateId
  }

  predicate BufferOk(f: Front) {
    && Shows(f.buffer, f.stream, f.base)
    && VadOk(f.vad)
    && (!f.busy ==> f.windows == [])
    && f.vad.processed + V.WINDOW * |f.windows| <= f.buffer.end < f.vad.processed + V.WINDOW * (|f.windows| + 1)
    && f.buffer.first <= Horizon(f.vad)
  }

  predicate SpeechOk(f: Front) {
    && (f.vad.speechStart.Some? ==> f.speechStart.Some?)
    && (f.speechStart.Some? ==>
          && f.turnId.Some? && f.incomplete < MAX_INCOMPLETE_VERDICTS
          && f.buffer.first <= f.speechStart.value <= Horizon(f.vad)
          && (f.completed.Some? ==> f.completed.value.1 < f.revision))
    && (f.completed.Some? ==> f.completed.value.1 <= f.revision)
  }

  ghost predicate CandidatesOk(cfg: Settings, f: Front) {
    && (forall c :: Outstanding(f, c) ==> c.id <= f.candidateId)
    && (forall c, d :: Outstanding(f, c) && Outstanding(f, d) && c.id == d.id ==> c == d)
    && (forall c :: c in f.candidates ==> c !in f.fallbacks)
    && (forall c :: Live(f, c) ==>
          && f.vad.speechStart.None? && f.speechStart.Some?
          && f.speechStart.value <= c.sample <= Horizon(f.vad))
    && (!cfg.semantic ==> forall c :: !Outstanding(f, c))
  }

  function Lo(t: Turn): nat {
    t.base + t.start
  }

  function Hi(t: Turn): nat {
    t.base + t.end
  }

  predicate TurnOk(stream: seq<byte>, t: Turn) {
    t.start <= t.end && 2 * Hi(t) <= |stream| && t.audio == stream[2 * Lo(t)..2 * Hi(t)]
  }

  /** The committed turns follow each other in the stream, with rising revisions. */
  predicate TurnsOk(f: Front) {
    && (forall i :: 0 <= i < |f.committed| ==>
          && TurnOk(f.stream, f.committed[i])
          && Hi(f.committed[i]) <= f.base + f.buffer.first
          && f.committed[i].revision <= f.revision
          && (f.completed.Some? && f.committed[i].revision <= f.completed.value.1))
    && (forall i, j :: 0 <= i < j < |f.committed| ==>
          Hi(f.committed[i]) <= Lo(f.committed[j]) && f.committed[i].revision < f.committed[j].revision)
  }

  ghost predicate Inv(cfg: Settings, f: Front) {
    !f.fault && BufferOk(f) && SpeechOk(f) && CandidatesOk(cfg, f) && TurnsOk(f)
  }

  // ---- Ending an utterance ----

  /** All that committing a turn reads is the same. */
  predicate SameGround(f: Front, f': Front) {
    && f'.fault == f.fault && f'.stream == f.stream && f'.base == f.base && f'.buffer == f.buffer
    && f'.vad == f.vad && f'.windows == f.windows && f'.busy == f.busy
    && f'.speechStart == f.speechStart && f'.turnId == f.turnId && f'.revision == f.revision
    && f'.completed == f.completed && f'.committed == f.committed
  }

  lemma GroundKeeps(f: Front, f': Front)
    requires SameGround(f, f') && f'.incomplete < MAX_INCOMPLETE_VERDICTS
    ensures BufferOk(f) ==> BufferOk(f')
    ensures SpeechOk(f) ==> SpeechOk(f')
    ensures TurnsOk(f) ==> TurnsOk(f')
  {
  }

  lemma CommitAppends(f: Front, f': Front, t: Turn)
    requires f.completed.Some? ==> f.completed.value.1 < t.revision
    requires TurnsOk(f) && Shows(f.buffer, f.stream, f.base)
    requires TurnOk(f.stream, t) && t.revision == f.revision && f.base + f.buffer.first <= Lo(t)
    requires f'.committed == f.committed + [t] && f'.stream == f.stream && f'.revision == f.revision
    requires f'.completed == Some((t.turnId, t.revision)) && Hi(t) <= f'.base + f'.buffer.first
    requires f.base + f.buffer.first <= f'.base + f'.buffer.first
    ensures TurnsOk(f')
  {
  }

  lemma StopCommits(f: Front, sample: nat, cause: Option<nat>)
    requires !f.fault && BufferOk(f) && SpeechOk(f) && TurnsOk(f)
    requires f.speechStart.Some? && f.speechStart.value <= sample <= f.buffer.end
    ensures var f' := f.SpeechStopped(sample, cause);
            && f' == f.(speechStart := None, completed := Some((f.turnId.value, f.revision)),
                        buffer := f.buffer.DiscardBefore(sample), committed := f'.committed)
            && f'.committed == f.committed + [Turn(f.turnId.value, f.revision, f.base, f.speechStart.value, sample,
                                                  f.buffer.Slice(f.speechStart.value, sample), cause)]
            && Shows(f'.buffer, f'.stream, f'.base) && TurnsOk(f')
  {
    SliceShows(f.buffer, f.stream, f.base, f.speechStart.value, sample);
    DiscardShows(f.buffer, f.stream, f.base, sample);
    var t := Turn(f.turnId.value, f.revision, f.base, f.speechStart.value, sample,
                  f.buffer.Slice(f.speechStart.value, sample), cause);
    CommitAppends(f, f.SpeechStopped(sample, cause), t);
  }

  /** Ending an utterance at or before the horizon, while no speech is detected. */
  lemma StopKeeps(cfg: Settings, f: Front, sample: nat, cause: Option<nat>)
    requires !f.fault && BufferOk(f) && SpeechOk(f) && TurnsOk(f)
    requires f.vad.speechStart.None? && f.speechStart.Some? && f.speechStart.value <= sample <= Horizon(f.vad)
    requires CandidatesOk(cfg, f) && forall c :: !Live(f, c)
    ensures Inv(cfg, f.SpeechStopped(sample, cause))
  {
    StopCommits(f, sample, cause);
    var f' := f.SpeechStopped(sample, cause);
    assert forall c :: Outstanding(f', c) <==> Outstanding(f, c);
    assert forall c :: Live(f', c) <==> Live(f, c);
  }

  // ---- Steps ----

  lemma ReceiveKeeps(cfg: Settings, f: Front, payload: seq<byte>, flags: seq<bool>)
    requires Inv(cfg, f) && Enabled(cfg, f, Receive(payload, flags))
    ensures Inv(cfg, f.Append(payload, flags))
  {
    var f' := f.Append(payload, flags);
    AppendShows(f.buffer, f.stream, f.base, payload);
    assert forall c :: Outstanding(f', c) <==> Outstanding(f, c);
    forall i | 0 <= i < |f.committed|
      ensures TurnOk(f'.stream, f.committed[i])
    {
      assert TurnOk(f.stream, f.committed[i]);
    }
  }

  lemma StartedKeeps(cfg: Settings, f: Front, next: Front, sample: nat)
    requires Inv(cfg, f) && f.windows != [] && f.vad.speechStart.None? && f.speechStart.None?
    requires next == f.(vad := next.vad, windows := f.windows[1..])
    requires VadOk(next.vad) && next.vad.processed == f.vad.processed + V.WINDOW
    requires Horizon(f.vad) <= Horizon(next.vad) && next.vad.speechStart.Some? && sample <= Horizon(next.vad)
    ensures Inv(cfg, next.SpeechStarted(sample))
  {
    var f' := next.SpeechStarted(sample);
    assert forall c :: Outstanding(f', c) <==> Outstanding(f, c);
    assert forall c :: Live(f', c) <==> Live(f, c);
  }

  lemma ResumedKeeps(cfg: Settings, f: Front, next: Front)
    requires Inv(cfg, f) && f.windows != [] && f.speechStart.Some?
    requires next == f.(vad := next.vad, windows := f.windows[1..])
    requires VadOk(next.vad) && next.vad.processed == f.vad.processed + V.WINDOW
    requires Horizon(f.vad) <= Horizon(next.vad)
    ensures Inv(cfg, next.SpeechResumed())
  {
    var f' := next.SpeechResumed();
    assert forall c :: Outstanding(f', c) <==> Outstanding(f, c);
  }

  lemma CandidateKeeps(cfg: Settings, f: Front, sample: nat)
    requires !f.fault && BufferOk(f) && SpeechOk(f) && CandidatesOk(cfg, f) && TurnsOk(f) && cfg.semantic
    requires f.vad.speechStart.None? && f.speechStart.Some? && f.speechStart.value <= sample <= Horizon(f.vad)
    ensures Inv(cfg, f.StopCandidate(cfg, sample))
  {
    var f' := f.StopCandidate(cfg, sample);
    var from := Max(f.speechStart.value, sample - cfg.maxSamples);
    assert f.buffer.Holds(from, sample);
    var made := Candidate(f.candidateId + 1, f.turnId.value, f.revision, sample, f.buffer.Slice(from, sample));
    assert forall c :: Outstanding(f', c) <==> Outstanding(f, c) || c == made;
  }

  lemma StoppedKeeps(cfg: Settings, f: Front, next: Front, sample: nat)
    requires Inv(cfg, f) && f.windows != [] && f.vad.speechStart.Some?
    requires next == f.(vad := next.vad, windows := f.windows[1..])
    requires VadOk(next.vad) && next.vad.processed == f.vad.processed + V.WINDOW
    requires next.vad.speechStart.None? && Horizon(f.vad) <= sample <= Horizon(next.vad)
    ensures Inv(cfg, next.StopCandidate(cfg, sample))
  {
    assert forall c :: Outstanding(next, c) <==> Outstanding(f, c);
    assert forall c :: !Live(f, c) && !Live(next, c);
    if cfg.semantic {
      CandidateKeeps(cfg, next, sample);
    } else {
      StopKeeps(cfg, next, sample, None);
    }
  }

  lemma WindowKeeps(cfg: Settings, f: Front)
    requires Inv(cfg, f) && Enabled(cfg, f, NextWindow)
    ensures Inv(cfg, f.HandleWindow(cfg))
  {
    AdvanceMoves(cfg.vad, f.vad, f.windows[0]);
    var (vad', signal) := V.Advance(cfg.vad, f.vad, f.windows[0]);
    var next := f.(vad := vad', windows := f.windows[1..]);
    match signal
    case None =>
      assert forall c :: Outstanding(next, c) <==> Outstanding(f, c);
      assert forall c :: Live(next, c) <==> Live(f, c);
    case Some(Started(sample)) =>
      if f.speechStart.None? {
        StartedKeeps(cfg, f, next, sample);
      } else {
        ResumedKeeps(cfg, f, next);
      }
    case Some(Stopped(sample)) => StoppedKeeps(cfg, f, next, sample);
  }

  lemma TrimKeeps(cfg: Settings, f: Front, f': Front)
    requires Inv(cfg, f) && f.busy && f.windows == [] && f.speechStart.None? && |f.buffer.data| > TRIM_BYTES
    requires f' == f.(busy := false, buffer := f.buffer.DiscardBefore(f.buffer.end - KEEP_SAMPLES))
    ensures Inv(cfg, f')
  {
    DiscardShows(f.buffer, f.stream, f.base, f.buffer.end - KEEP_SAMPLES);
    assert forall c :: Outstanding(f', c) <==> Outstanding(f, c);
    assert forall c :: Live(f', c) <==> Live(f, c);
  }

  lemma ReceivedKeeps(cfg: Settings, f: Front)
    requires Inv(cfg, f) && Enabled(cfg, f, Received)
    ensures Inv(cfg, f.EndAppend())
  {
    if f.speechStart.None? && |f.buffer.data| > TRIM_BYTES {
      TrimKeeps(cfg, f, f.EndAppend());
    } else {
      RestKeeps(cfg, f, f.EndAppend());
    }
  }

  lemma RestKeeps(cfg: Settings, f: Front, f': Front)
    requires Inv(cfg, f) && f.windows == [] && f' == f.(busy := false)
    ensures Inv(cfg, f')
  {
    assert forall c :: Outstanding(f', c) <==> Outstanding(f, c);
    assert forall c :: Live(f', c) <==> Live(f, c);
    assert BufferOk(f') && SpeechOk(f') && TurnsOk(f');
  }

  /** A candidate or fallback that was delivered is gone. */
  lemma DeliveredKeeps(cfg: Settings, f: Front, next: Front, c: Candidate)
    requires Inv(cfg, f) && Outstanding(f, c)
    requires next == f.(candidates := f.candidates - {c}, fallbacks := f.fallbacks - {c})
    ensures Inv(cfg, next)
    ensures f.IsFresh(c) ==> (forall d :: !Live(next, d)) && c.sample <= Horizon(f.vad) && f.vad.speechStart.None?
                             && f.speechStart.Some? && f.speechStart.value <= c.sample
  {
    assert forall d :: Outstanding(next, d) <==> Outstanding(f, d) && d != c;
    assert forall d :: Live(next, d) ==> Live(f, d);
    if f.IsFresh(c) {
      assert Live(f, c);
    }
  }

  lemma WaitingKeeps(cfg: Settings, f: Front, next: Front, c: Candidate)
    requires Inv(cfg, f) && c in f.candidates && f.incomplete + 1 < MAX_INCOMPLETE_VERDICTS
    requires next == f.(candidates := f.candidates - {c}, fallbacks := f.fallbacks + {c},
                        incomplete := f.incomplete + 1)
    ensures Inv(cfg, next)
  {
    assert forall d :: Outstanding(next, d) <==> Outstanding(f, d);
    assert forall d :: Live(next, d) <==> Live(f, d);
  }

  lemma DecideKeeps(cfg: Settings, f: Front, c: Candidate, complete: bool)
    requires Inv(cfg, f) && c in f.candidates
    ensures Inv(cfg, f.Verdict(c, complete))
  {
    assert Outstanding(f, c);
    var next := f.(candidates := f.candidates - {c});
    assert next == f.(candidates := f.candidates - {c}, fallbacks := f.fallbacks - {c});
    DeliveredKeeps(cfg, f, next, c);
    if f.IsFresh(c) {
      if complete {
        StopKeeps(cfg, next, c.sample, Some(c.id));
      } else if f.incomplete + 1 >= MAX_INCOMPLETE_VERDICTS {
        ForcedKeeps(cfg, next, f.incomplete + 1, c.sample, Some(c.id));
      } else {
        WaitingKeeps(cfg, f, f.Verdict(c, complete), c);
      }
    }
  }

  lemma ForcedKeeps(cfg: Settings, f: Front, count: nat, sample: nat, cause: Option<nat>)
    requires Inv(cfg, f) && forall c :: !Live(f, c)
    requires f.vad.speechStart.None? && f.speechStart.Some? && f.speechStart.value <= sample <= Horizon(f.vad)
    ensures Inv(cfg, f.(incomplete := count).SpeechStopped(sample, cause))
  {
    StopCommits(f, sample, cause);
    StopKeeps(cfg, f, sample, cause);
    StopForced(cfg, f, count, sample, cause);
  }

  /** The verdict counter plays no part in ending the utterance. */
  lemma StopForced(cfg: Settings, f: Front, count: nat, sample: nat, cause: Option<nat>)
    requires Inv(cfg, f.SpeechStopped(sample, cause)) && f.SpeechStopped(sample, cause).speechStart.None?
    ensures Inv(cfg, f.(incomplete := count).SpeechStopped(sample, cause))
  {
    var a, b := f.SpeechStopped(sample, cause), f.(incomplete := count).SpeechStopped(sample, cause);
    assert b == a.(incomplete := count);
    assert forall d :: Outstanding(b, d) <==> Outstanding(a, d);
    assert forall d :: Live(b, d) <==> Live(a, d);
  }

  lemma TimeoutKeeps(cfg: Settings, f: Front, c: Candidate)
    requires Inv(cfg, f) && c in f.fallbacks
    ensures Inv(cfg, f.Fallback(c))
  {
    assert Outstanding(f, c) && c !in f.candidates;
    var next := f.(fallbacks := f.fallbacks - {c});
    assert next == f.(candidates := f.candidates - {c}, fallbacks := f.fallbacks - {c});
    DeliveredKeeps(cfg, f, next, c);
    if f.IsFresh(c) {
      StopKeeps(cfg, next, c.sample, Some(c.id));
    }
  }

  /** After the indices restart, everything starts over except the history. */
  lemma RestartKeeps(cfg: Settings, f: Front)
    requires !f.fault && Shows(f.buffer, f.stream, f.base) && TurnsOk(f) && !f.busy && f.windows == []
    requires f.speechStart.None? && (f.completed.Some? ==> f.completed.value.1 <= f.revision)
    requires CandidatesOk(cfg, f) && forall c :: !Live(f, c)
    ensures Inv(cfg, f.Restart())
  {
    var f' := f.Restart();
    RestartHolds(f);
    assert forall c :: Outstanding(f', c) <==> Outstanding(f, c);
    assert forall c :: Live(f', c) <==> Live(f, c);
    assert CandidatesOk(cfg, f');
  }

  lemma RestartHolds(f: Front)
    requires !f.fault && Shows(f.buffer, f.stream, f.base) && TurnsOk(f) && !f.busy && f.windows == []
    requires f.speechStart.None? && (f.completed.Some? ==> f.completed.value.1 <= f.revision)
    ensures BufferOk(f.Restart()) && SpeechOk(f.Restart()) && TurnsOk(f.Restart())
  {
  }

  /** Every open candidate is void once the id moves on. */
  lemma Voided(cfg: Settings, f: Front, next: Front)
    requires CandidatesOk(cfg, f) && next.candidates == f.candidates && next.fallbacks == f.fallbacks
    requires next.candidateId > f.candidateId
    ensures CandidatesOk(cfg, next) && (forall c :: Outstanding(next, c) ==> c.id < next.candidateId)
    ensures forall c :: !Live(next, c)
  {
    assert forall c :: Outstanding(next, c) <==> Outstanding(f, c);
  }

  lemma CommitKeeps(cfg: Settings, f: Front)
    requires Inv(cfg, f) && !f.busy
    ensures Inv(cfg, f.Commit())
  {
    if f.speechStart.Some? {
      OpenKeeps(cfg, f);
    } else if |f.buffer.data| == 0 {
      VoidKeeps(cfg, f);
    } else {
      ManualKeeps(cfg, f);
    }
  }

  lemma VoidKeeps(cfg: Settings, f: Front)
    requires Inv(cfg, f)
    ensures Inv(cfg, f.Void())
  {
    Voided(cfg, f, f.Void());
  }

  lemma OpenKeeps(cfg: Settings, f: Front)
    requires Inv(cfg, f) && !f.busy && f.speechStart.Some?
    ensures Inv(cfg, f.Void().EndInput())
  {
    Voided(cfg, f, f.Void());
    EndOfInput(cfg, f.Void());
  }

  lemma ManualKeeps(cfg: Settings, f: Front)
    requires Inv(cfg, f) && !f.busy && f.speechStart.None?
    ensures Inv(cfg, f.Void().OpenManually().EndInput())
  {
    var manual := f.Void().OpenManually();
    Voided(cfg, f, manual);
    ManualEnd(cfg, manual);
  }

  lemma EndOfInput(cfg: Settings, f: Front)
    requires !f.fault && BufferOk(f) && SpeechOk(f) && TurnsOk(f) && !f.busy && f.speechStart.Some?
    requires CandidatesOk(cfg, f) && forall c :: !Live(f, c)
    ensures Inv(cfg, f.EndInput())
  {
    StopCommits(f, f.buffer.end, None);
    var stopped := f.SpeechStopped(f.buffer.end, None);
    assert forall c :: Outstanding(stopped, c) <==> Outstanding(f, c);
    RestartKeeps(cfg, stopped);
  }

  /** A manual commit opens and ends an utterance that covers the whole buffer. */
  lemma ManualEnd(cfg: Settings, f: Front)
    requires !f.fault && BufferOk(f) && TurnsOk(f) && !f.busy
    requires f.speechStart == Some(f.buffer.first) && f.turnId.Some?
    requires f.completed.Some? ==> f.completed.value.1 < f.revision
    requires forall c :: Outstanding(f, c) ==> c.id < f.candidateId
    requires forall c, d :: Outstanding(f, c) && Outstanding(f, d) && c.id == d.id ==> c == d
    requires forall c :: c in f.candidates ==> c !in f.fallbacks
    requires !cfg.semantic ==> forall c :: !Outstanding(f, c)
    ensures Inv(cfg, f.EndInput())
  {
    var counted := f.(incomplete := 0);
    GroundKeeps(f, counted);
    assert SpeechOk(counted);
    StopCommits(counted, f.buffer.end, None);
    var ended, stopped := counted.SpeechStopped(f.buffer.end, None), f.SpeechStopped(f.buffer.end, None);
    assert stopped == ended.(incomplete := f.incomplete);
    assert TurnsOk(ended) && Shows(ended.buffer, ended.stream, ended.base);
    assert forall c :: Outstanding(stopped, c) <==> Outstanding(f, c);
    assert forall c :: !Live(stopped, c);
    RestartKeeps(cfg, stopped);
  }

  lemma ClearKeeps(cfg: Settings, f: Front)
    requires Inv(cfg, f) && !f.busy
    ensures Inv(cfg, f.Clear())
  {
    var next := f.(candidateId := f.candidateId + 1, turnId := None, speechStart := None);
    assert forall c :: Outstanding(next, c) <==> Outstanding(f, c);
    assert forall c :: !Live(next, c);
    RestartKeeps(cfg, next);
    assert f.Clear() == next.Restart();
  }

  lemma NeedTurnKeeps(cfg: Settings, f: Front)
    requires Inv(cfg, f)
    ensures Inv(cfg, f.AssignTurn())
  {
    var f' := f.AssignTurn();
    assert forall c :: Outstanding(f', c) <==> Outstanding(f, c);
    assert forall c :: Live(f', c) <==> Live(f, c);
  }

  lemma StepKeepsInv(cfg: Settings, f: Front, step: Step)
    requires Inv(cfg, f) && Enabled(cfg, f, step)
    ensures Inv(cfg, Apply(cfg, f, step))
  {
    match step
    case Receive(payload, flags) => ReceiveKeeps(cfg, f, payload, flags);
    case NextWindow => WindowKeeps(cfg, f);
    case Received => ReceivedKeeps(cfg, f);
    case Decide(c, complete) => DecideKeeps(cfg, f, c, complete);
    case Timeout(c) => TimeoutKeeps(cfg, f, c);
    case CommitAudio => CommitKeeps(cfg, f);
    case ClearAudio => ClearKeeps(cfg, f);
    case NeedTurn => NeedTurnKeeps(cfg, f);
  }

  lemma {:induction false} RunKeepsInv(cfg: Settings, f: Front, steps: seq<Step>)
    requires Inv(cfg, f) && Possible(cfg, f, steps)
    ensures Inv(cfg, Execute(cfg, f, steps))
    decreases |steps|
  {
    if steps == [] {
    } else {
      StepKeepsInv(cfg, f, steps[0]);
      RunKeepsInv(cfg, Apply(cfg, f, steps[0]), steps[1..]);
    }
  }

  lemma InitialInv(cfg: Settings)
    ensures Inv(cfg, INITIAL)
  {
    assert forall c :: !Outstanding(INITIAL, c);
  }

  // ---- Main results ----

  /** No run ever slices or discards outside the buffer. */
  lemma NeverOutsideBuffer(cfg: Settings, steps: seq<Step>)
    requires Possible(cfg, INITIAL, steps)
    ensures !Execute(cfg, INITIAL, steps).fault
  {
    InitialInv(cfg);
    RunKeepsInv(cfg, INITIAL, steps);
  }

  /**
   Every committed turn holds exactly its stretch of the input stream; the stretches
   follow each other without overlap, and no revision is committed twice.
   */
  lemma TurnsPartitionTheStream(cfg: Settings, steps: seq<Step>)
    requires Possible(cfg, INITIAL, steps)
    ensures var f := Execute(cfg, INITIAL, steps);
            && (forall i :: 0 <= i < |f.committed| ==> TurnOk(f.stream, f.committed[i]))
            && (forall i, j :: 0 <= i < j < |f.committed| ==>
                  Hi(f.committed[i]) <= Lo(f.committed[j]) && f.committed[i].revision < f.committed[j].revision)
  {
    InitialInv(cfg);
    RunKeepsInv(cfg, INITIAL, steps);
  }

  // ---- Who commits ----

  /** What a step adds to the committed turns. */
  function Added(cfg: Settings, f: Front, step: Step): seq<Turn>
    requires Enabled(cfg, f, step)
  {
    var after := Apply(cfg, f, step).committed;
    if |after| <= |f.committed| then [] else after[|f.committed|..]
  }

  /** The candidate whose verdict or fallback a step delivers. */
  function Delivered(step: Step): Option<Candidate> {
    match step
    case Decide(c, _) => Some(c)
    case Timeout(c) => Some(c)
    case _ => None
  }

  predicate Committed(cfg: Settings, f: Front, step: Step, turn: Turn) {
    match turn.cause
    case None => step.CommitAudio? || (step.NextWindow? && !cfg.semantic)
    case Some(k) =>
      && k == f.candidateId && Delivered(step).Some?
      && var c := Delivered(step).value;
         c.id == k && c.turnId == turn.turnId && c.revision == turn.revision && c.sample == turn.end
  }

  predicate Extends(before: Front, after: Front, turns: seq<Turn>) {
    after.committed == before.committed + turns && |turns| <= 1 && after.candidateId >= before.candidateId
  }

  lemma StopExtends(f: Front, sample: nat, cause: Option<nat>)
    ensures var f' := f.SpeechStopped(sample, cause);
            && (Extends(f, f', [])
                || (f.turnId.Some? && f.speechStart.Some? && f.buffer.Valid()
                    && f.buffer.Holds(f.speechStart.value, sample)
                    && Extends(f, f', [Turn(f.turnId.value, f.revision, f.base, f.speechStart.value, sample,
                                            f.buffer.Slice(f.speechStart.value, sample), cause)])))
            && f'.candidateId == f.candidateId
  {
    assert f.committed + [] == f.committed;
  }

  lemma WindowCommits(cfg: Settings, f: Front)
    requires f.busy && f.windows != []
    ensures Extends(f, f.HandleWindow(cfg), Added(cfg, f, NextWindow))
    ensures forall i :: 0 <= i < |Added(cfg, f, NextWindow)| ==>
              Committed(cfg, f, NextWindow, Added(cfg, f, NextWindow)[i])
  {
    var (vad', signal) := V.Advance(cfg.vad, f.vad, f.windows[0]);
    var next := f.(vad := vad', windows := f.windows[1..]);
    if signal.Some? && signal.value.Stopped? {
      StopExtends(next, signal.value.sample, None);
    }
  }

  lemma DecideCommits(cfg: Settings, f: Front, c: Candidate, complete: bool)
    requires c in f.candidates
    ensures var step := Decide(c, complete);
            && Extends(f, f.Verdict(c, complete), Added(cfg, f, step))
            && forall i :: 0 <= i < |Added(cfg, f, step)| ==> Committed(cfg, f, step, Added(cfg, f, step)[i])
  {
    var next := f.(candidates := f.candidates - {c});
    StopExtends(next, c.sample, Some(c.id));
    StopExtends(next.(incomplete := f.incomplete + 1), c.sample, Some(c.id));
  }

  /** One step commits at most one turn, and only the current candidate, a commit or a fixed silence does so. */
  lemma StepCommits(cfg: Settings, f: Front, step: Step)
    requires Enabled(cfg, f, step)
    ensures Extends(f, Apply(cfg, f, step), Added(cfg, f, step))
    ensures forall i :: 0 <= i < |Added(cfg, f, step)| ==> Committed(cfg, f, step, Added(cfg, f, step)[i])
  {
    match step
    case NextWindow => WindowCommits(cfg, f);
    case Decide(c, complete) => DecideCommits(cfg, f, c, complete);
    case Timeout(c) =>
      StopExtends(f.(fallbacks := f.fallbacks - {c}), c.sample, Some(c.id));
    case CommitAudio =>
      StopExtends(f.Void(), f.buffer.end, None);
      StopExtends(f.Void().OpenManually(), f.buffer.end, None);
    case _ =>
  }

  /** A resumption, a commit and a clear void every candidate so far. */
  lemma VoidingSteps(cfg: Settings, f: Front, step: Step)
    requires Enabled(cfg, f, step) && Inv(cfg, f)
    requires step.CommitAudio? || step.ClearAudio?
             || (step.NextWindow? && f.speechStart.Some?
                 && var signal := V.Advance(cfg.vad, f.vad, f.windows[0]).1; signal.Some? && signal.value.Started?)
    ensures Apply(cfg, f, step).candidateId == f.candidateId + 1
  {
    if step.CommitAudio? {
      StopExtends(f.Void(), f.buffer.end, None);
      StopExtends(f.Void().OpenManually(), f.buffer.end, None);
    }
  }

  /** A candidate that is no longer the current one commits nothing in any continuation. */
  lemma {:induction false} VoidedNeverCommits(cfg: Settings, f: Front, steps: seq<Step>, k: nat)
    requires Possible(cfg, f, steps) && k < f.candidateId
    ensures f.committed <= Execute(cfg, f, steps).committed
    ensures forall t :: t in Execute(cfg, f, steps).committed[|f.committed|..] ==> t.cause != Some(k)
    decreases |steps|
  {
    if steps == [] {
    } else {
      StepCommits(cfg, f, steps[0]);
      var next := Apply(cfg, f, steps[0]);
      VoidedNeverCommits(cfg, next, steps[1..], k);
      var all := Execute(cfg, f, steps).committed;
      assert all[|f.committed|..] == Added(cfg, f, steps[0]) + all[|next.committed|..];
    }
  }

  // ---- Verdicts heard ----

  /** The step is an incomplete verdict about the open utterance of this revision. */
  predicate Hears(f: Front, step: Step, revision: int) {
    step.Decide? && !step.complete && f.IsFresh(step.candidate) && f.revision == revision
  }

  /** The incomplete verdicts a run hears about one revision. */
  function Heard(cfg: Settings, f: Front, steps: seq<Step>, revision: int): nat
    requires Possible(cfg, f, steps)
    decreases |steps|
  {
    if steps == [] then 0
    else (if Hears(f, steps[0], revision) then 1 else 0) + Heard(cfg, Apply(cfg, f, steps[0]), steps[1..], revision)
  }

  predicate OpenAt(f: Front, revision: int) {
    f.speechStart.Some? && f.revision == revision
  }

  /** How many incomplete verdicts about a revision can still come. */
  function Allowance(f: Front, revision: int): nat {
    if f.revision < revision then MAX_INCOMPLETE_VERDICTS
    else if OpenAt(f, revision) && f.incomplete <= MAX_INCOMPLETE_VERDICTS then MAX_INCOMPLETE_VERDICTS - f.incomplete
    else 0
  }

  predicate Counts(f: Front, f': Front, one: nat, revision: int) {
    && f.revision <= f'.revision
    && one + Allowance(f', revision) <= Allowance(f, revision)
    && (OpenAt(f', revision) && f.revision == revision ==>
          OpenAt(f, revision) && f'.incomplete == f.incomplete + one)
    && (OpenAt(f', revision) && f.revision < revision ==> one == 0 && f'.incomplete == 0)
  }

  lemma StopEnds(f: Front, sample: nat, cause: Option<nat>)
    requires f.turnId.Some?
    ensures var f' := f.SpeechStopped(sample, cause);
            f'.speechStart.None? && f'.revision == f.revision && f'.turnId == f.turnId
  {
  }

  lemma WindowCounts(cfg: Settings, f: Front, revision: int)
    requires Inv(cfg, f) && f.windows != []
    ensures Counts(f, f.HandleWindow(cfg), 0, revision)
  {
    var (vad', signal) := V.Advance(cfg.vad, f.vad, f.windows[0]);
    var next := f.(vad := vad', windows := f.windows[1..]);
    if signal.Some? && signal.value.Stopped? && f.speechStart.Some? {
      StopEnds(next, signal.value.sample, None);
    }
  }

  lemma DecideCounts(cfg: Settings, f: Front, c: Candidate, complete: bool, revision: int)
    requires Inv(cfg, f) && c in f.candidates
    ensures Counts(f, f.Verdict(c, complete), if Hears(f, Decide(c, complete), revision) then 1 else 0, revision)
  {
    var next := f.(candidates := f.candidates - {c});
    if f.IsFresh(c) {
      StopEnds(next, c.sample, Some(c.id));
      StopEnds(next.(incomplete := f.incomplete + 1), c.sample, Some(c.id));
    }
  }

  lemma StepHears(cfg: Settings, f: Front, step: Step, revision: int)
    requires Inv(cfg, f) && Enabled(cfg, f, step)
    ensures Counts(f, Apply(cfg, f, step), if Hears(f, step, revision) then 1 else 0, revision)
  {
    match step
    case NextWindow => WindowCounts(cfg, f, revision);
    case Decide(c, complete) => DecideCounts(cfg, f, c, complete, revision);
    case Timeout(c) =>
      if f.IsFresh(c) {
        StopEnds(f.(fallbacks := f.fallbacks - {c}), c.sample, Some(c.id));
      }
    case CommitAudio =>
      if f.speechStart.Some? {
        StopEnds(f.Void(), f.buffer.end, None);
      } else {
        StopEnds(f.Void().OpenManually(), f.buffer.end, None);
      }
    case _ =>
  }

  /**
   An utterance hears at most two incomplete verdicts, and while it is open the counter
   has counted exactly those it heard, fewer than two.
   */
  lemma {:induction false} VerdictsAreBounded(cfg: Settings, f: Front, steps: seq<Step>, revision: int)
    requires Inv(cfg, f) && Possible(cfg, f, steps)
    ensures Heard(cfg, f, steps, revision) <= Allowance(f, revision)
    ensures f.revision <= Execute(cfg, f, steps).revision
    ensures OpenAt(Execute(cfg, f, steps), revision) && f.revision == revision ==> OpenAt(f, revision)
    ensures f.revision < revision && OpenAt(Execute(cfg, f, steps), revision) ==>
              Heard(cfg, f, steps, revision) == Execute(cfg, f, steps).incomplete < 2
    ensures OpenAt(f, revision) && OpenAt(Execute(cfg, f, steps), revision) ==>
              f.incomplete + Heard(cfg, f, steps, revision) == Execute(cfg, f, steps).incomplete
              && Execute(cfg, f, steps).incomplete < 2
    decreases |steps|
  {
    if steps == [] {
    } else {
      var next := Apply(cfg, f, steps[0]);
      StepKeepsInv(cfg, f, steps[0]);
      StepHears(cfg, f, steps[0], revision);
      VerdictsAreBounded(cfg, next, steps[1..], revision);
    }
  }
}
