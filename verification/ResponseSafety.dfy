/**
 The wire trace of the response protocol.

 Main results: a run produces a trace that every client accepts exactly when no response
 is started while a cancelled one is still waiting for its done event
 (`AcceptedExactlyWhenStartsAreClean`), and the steps that make this possible are exactly
 the risky ones (`AcceptedUnlessRisky`, `RiskyStepOverlaps`); cancelled audio never
 reaches the wire (`CancelledAudioStaysUnsent`); a pending tool call is never overwritten;
 a session is stuck exactly when a runner was cancelled before it began
 (`StuckExactlyAfterEarlyCancel`).
 */
module ResponseSafety {
  import opened Options
  import opened Wire
  import opened ResponseProtocol
  import opened ResponseInvariant
  import Client

  function Newest(s: Server): Context
    requires s.contexts != []
  {
    s.contexts[|s.contexts| - 1]
  }

  /**
   A cancelled response whose runner has left without a done event. The session
   looks idle; the done event follows when the cancelling handler resumes.
   */
  predicate Orphan(s: Server) {
    s.response.None? && s.contexts != [] && !Newest(s).finalized
  }

  /** The step creates a response. */
  predicate Creates(s: Server, step: Step) {
    step.Start? && s.response.None? && (step.kind.DirectSpeak? || s.pending.None?)
  }

  predicate CleanStep(s: Server, step: Step) {
    Creates(s, step) ==> !Orphan(s)
  }

  predicate CleanStarts(s: Server, steps: seq<Step>)
    requires Possible(s, steps)
    decreases |steps|
  {
    steps != [] ==> CleanStep(s, steps[0]) && CleanStarts(Apply(s, steps[0]), steps[1..])
  }

  /** What the grammar knows about the log agrees with the newest response. */
  predicate Follows(g: Grammar, s: Server) {
    if s.contexts == [] then g == Idle(0)
    else
      var n, c := |s.contexts| - 1, Newest(s);
      if c.finalized then g == Idle(n + 1)
      else
        && g.Open? && g.generation == n && !g.called
        && g.text == c.text && g.textDone == c.textDone && g.audioDone == c.audioDone
        && (s.Current(n) ==> g.next == c.audioSequence)
        && (!c.speaking ==> g.next == 0)
  }

  predicate Sound(s: Server) {
    && (forall h: nat :: h + 1 < |s.contexts| ==> s.contexts[h].finalized)
    && WellFormed(s.outbound.Log())
    && Follows(Parse(s.outbound.Log()).value, s)
  }

  lemma SendLogged(s: Server, e: Event)
    requires !s.outbound.Suppressed(e)
    ensures Parse(s.Send(e).outbound.Log()) == NextOption(Parse(s.outbound.Log()), e)
  {
    assert s.Send(e).outbound.Log() == s.outbound.Log() + [e];
    ParseAppend(s.outbound.Log(), e);
  }

  /** The newest response is `g` and has not been finalized. */
  predicate Unfinished(s: Server, g: nat) {
    g + 1 == |s.contexts| && !s.contexts[g].finalized
  }

  lemma NoticeSound(s: Server)
    requires Sound(s)
    ensures Sound(s.Send(Notice))
  {
    SendLogged(s, Notice);
  }

  lemma SendTextDoneSound(s: Server, g: nat)
    requires Sound(s) && Unfinished(s, g)
    ensures Sound(s.SendTextDone(g)) && Unfinished(s.SendTextDone(g), g)
    ensures s.SendTextDone(g).contexts[g] == s.contexts[g].(textDone := true)
  {
    SendLogged(s, TextDone(g, s.contexts[g].text));
  }

  lemma SendAudioDoneSound(s: Server, g: nat)
    requires Sound(s) && Unfinished(s, g) && s.contexts[g].textDone
    ensures Sound(s.SendAudioDone(g)) && Unfinished(s.SendAudioDone(g), g)
    ensures s.SendAudioDone(g).contexts[g] == s.contexts[g].(audioDone := true)
  {
    SendLogged(s, AudioDone(g));
  }

  lemma FinalizeSound(s: Server, g: nat, ending: Ending)
    requires Sound(s) && Unfinished(s, g) && s.contexts[g].textDone == s.contexts[g].audioDone && !ending.ToolCalled?
    ensures Sound(s.Finalize(g, ending)) && s.Finalize(g, ending).contexts[g] == s.contexts[g].(finalized := true)
  {
    SendLogged(s, Done(g, ending));
  }

  lemma EndSpeechSound(s: Server, g: nat, ending: Ending)
    requires Sound(s) && Unfinished(s, g) && !ending.ToolCalled?
    ensures Sound(s.EndSpeech(g, ending))
    ensures s.EndSpeech(g, ending).contexts[g] == s.contexts[g].(textDone := true, audioDone := true, finalized := true)
  {
    SendTextDoneSound(s, g);
    SendAudioDoneSound(s.SendTextDone(g), g);
    FinalizeSound(s.SendTextDone(g).SendAudioDone(g), g, ending);
  }

  /** A finalized response sends nothing more. */
  lemma EndSpeechTwice(s: Server, g: nat, ending: Ending)
    requires g < |s.contexts| && s.contexts[g].finalized && s.contexts[g].textDone && s.contexts[g].audioDone
    ensures s.EndSpeech(g, ending) == s
  {
  }

  /** Fields that the trace does not show may change. */
  lemma SameTrace(s: Server, s': Server)
    requires Sound(s)
    requires s'.outbound.Log() == s.outbound.Log() && |s'.contexts| == |s.contexts|
    requires forall h: nat :: h + 1 < |s.contexts| ==> s'.contexts[h].finalized == s.contexts[h].finalized
    requires s.contexts != [] ==>
               var c, c' := Newest(s), Newest(s');
               && c'.text == c.text && c'.textDone == c.textDone && c'.audioDone == c.audioDone
               && c'.finalized == c.finalized && c'.audioSequence == c.audioSequence
               && (c.speaking ==> c'.speaking)
               && (s'.Current(|s.contexts| - 1) ==> s.Current(|s.contexts| - 1))
    ensures Sound(s')
  {
  }

  lemma LeaveSound(s: Server, g: nat)
    requires Sound(s) && g + 1 == |s.contexts|
    ensures Sound(s.Leave(g))
  {
    SameTrace(s, s.Leave(g));
  }

  lemma EndEarlySound(s: Server, g: nat, ending: Ending)
    requires Sound(s) && g + 1 == |s.contexts| && !ending.ToolCalled?
    requires s.contexts[g].finalized ==> s.contexts[g].textDone && s.contexts[g].audioDone
    requires !s.contexts[g].finalized && s.contexts[g].call.Some? && !s.contexts[g].speaking ==>
               s.contexts[g].textDone == s.contexts[g].audioDone
    ensures Sound(s.EndEarly(g, ending))
  {
    if s.contexts[g].finalized {
      EndSpeechTwice(s, g, ending);
      LeaveSound(s, g);
    } else if s.contexts[g].call.None? || s.contexts[g].speaking {
      EndSpeechSound(s, g, ending);
      LeaveSound(s.EndSpeech(g, ending), g);
    } else {
      FinalizeSound(s, g, ending);
      LeaveSound(s.Finalize(g, ending), g);
    }
  }

  lemma EmitCallSound(s: Server, g: nat)
    requires Sound(s) && Unfinished(s, g) && s.contexts[g].call.Some?
    requires s.contexts[g].text == "" && !s.contexts[g].speaking
    requires !s.contexts[g].textDone && !s.contexts[g].audioDone
    ensures Sound(s.EmitCall(g).Leave(g))
  {
    var called := s.(pending := Some(s.Issued(g))).Send(CallDone(g, s.contexts[g].call.value));
    SendLogged(s.(pending := Some(s.Issued(g))), CallDone(g, s.contexts[g].call.value));
    SendLogged(called.With(g, s.contexts[g].(finalized := true)), Done(g, ToolCalled));
    assert Sound(s.EmitCall(g));
    LeaveSound(s.EmitCall(g), g);
  }

  lemma EnterCancelledSound(s: Server, g: nat)
    requires Sound(s) && Unfinished(s, g)
    requires s.contexts[g].call.Some? && !s.contexts[g].speaking ==>
               s.contexts[g].textDone == s.contexts[g].audioDone
    ensures Sound(s.EnterCancelled(g))
  {
    if s.contexts[g].speaking {
      SameTrace(s, s.EnterCancelled(g));
    } else {
      EndEarlySound(s, g, CutOff);
    }
  }

  lemma EnterFailedSound(s: Server, g: nat)
    requires Sound(s) && g + 1 == |s.contexts|
    requires s.contexts[g].finalized ==> s.contexts[g].textDone && s.contexts[g].audioDone
    requires !s.contexts[g].finalized && s.contexts[g].call.Some? && !s.contexts[g].speaking ==>
               s.contexts[g].textDone == s.contexts[g].audioDone
    ensures Sound(s.EnterFailed(g))
  {
    if s.contexts[g].speaking {
      SameTrace(s, s.EnterFailed(g));
    } else {
      NoticeSound(s);
      EndEarlySound(s.Send(Notice), g, Ending.Failed);
    }
  }

  lemma DeltaSound(s: Server, g: nat, delta: string, c: Context)
    requires Sound(s) && Unfinished(s, g) && !s.contexts[g].textDone && delta != ""
    requires c == s.contexts[g].(text := s.contexts[g].text + delta, speaking := c.speaking)
    requires s.contexts[g].speaking ==> c.speaking
    ensures Sound(s.With(g, c).Send(TextDelta(g, delta)))
  {
    SendLogged(s.With(g, c), TextDelta(g, delta));
  }

  lemma SpeakBeginSound(s: Server, g: nat, fits: bool)
    requires Inv(s) && Sound(s) && Enabled(s, Begin(g, fits)) && s.contexts[g].kind.DirectSpeak?
    ensures Sound(s.RunnerBegins(g, fits))
  {
    var c := s.contexts[g];
    assert ContextOk(s, g);
    var spoken := c.(text := c.speech);
    var a := s.With(g, spoken).Send(TextDelta(g, c.speech));
    assert c.text + c.speech == c.speech;
    DeltaSound(s, g, c.speech, spoken);
    SendTextDoneSound(a, g);
    SameTrace(a.SendTextDone(g), s.RunnerBegins(g, fits));
  }

  lemma BeginSound(s: Server, g: nat, fits: bool)
    requires Inv(s) && Sound(s) && Enabled(s, Begin(g, fits))
    ensures Sound(s.RunnerBegins(g, fits))
  {
    assert ContextOk(s, g);
    match s.contexts[g].kind
    case ModelReply => SameTrace(s, s.RunnerBegins(g, fits));
    case DirectSpeak => SpeakBeginSound(s, g, fits);
    case DeferredCall =>
      assert s.Current(g);
      EmitCallSound(s, g);
  }

  lemma TextSound(s: Server, g: nat, delta: string)
    requires Inv(s) && Sound(s) && Enabled(s, Text(g, delta))
    ensures Sound(s.ModelText(g, delta))
  {
    var c := s.contexts[g];
    assert ContextOk(s, g);
    if s.Current(g) {
      DeltaSound(s, g, delta, c.(text := c.text + delta, speaking := true));
    } else {
      EnterCancelledSound(s, g);
    }
  }

  lemma ToolCallSound(s: Server, g: nat, call: Call)
    requires Inv(s) && Sound(s) && Enabled(s, ToolCall(g, call))
    ensures Sound(s.ModelCall(g, call))
  {
    assert ContextOk(s, g);
    if !s.Current(g) {
      EnterCancelledSound(s, g);
    } else if s.contexts[g].call.Some? {
      EnterFailedSound(s, g);
    } else {
      SameTrace(s, s.ModelCall(g, call));
    }
  }

  lemma EndSound(s: Server, g: nat)
    requires Inv(s) && Sound(s) && Enabled(s, End(g))
    ensures Sound(s.ModelEnds(g))
  {
    var c := s.contexts[g];
    assert ContextOk(s, g);
    if c.call.Some? && c.text == "" {
      EmitCallSound(s, g);
    } else if !c.speaking {
      EnterFailedSound(s, g);
    } else {
      SendTextDoneSound(s, g);
      SameTrace(s.SendTextDone(g), s.ModelEnds(g));
    }
  }

  lemma SpeechDoneSound(s: Server, g: nat, kept: bool)
    requires Inv(s) && Sound(s) && Enabled(s, SpeechDone(g, kept))
    ensures Sound(s.TtsFinishes(g, kept))
  {
    assert ContextOk(s, g);
    SendAudioDoneSound(s, g);
    FinalizeSound(s.SendAudioDone(g), g, Completed);
    var ended := s.SendAudioDone(g).Finalize(g, Completed);
    if kept {
      LeaveSound(ended, g);
    } else {
      EnterFailedSound(ended, g);
    }
  }

  lemma CleanedUpSound(s: Server, g: nat)
    requires Inv(s) && Sound(s) && Enabled(s, CleanedUp(g))
    ensures Sound(s.CleanupEnds(g))
  {
    assert ContextOk(s, g);
    NoticeSound(s);
    if s.contexts[g].phase.FailCleanup? {
      EndEarlySound(s.Send(Notice), g, Ending.Failed);
    } else {
      EndEarlySound(s, g, CutOff);
    }
  }

  lemma CancelledSound(s: Server, g: nat)
    requires Inv(s) && Sound(s) && Enabled(s, Cancelled(g))
    ensures Sound(s.CancelDelivered(g))
  {
    assert ContextOk(s, g);
    var a := s.With(g, s.contexts[g].(cancelRequested := false));
    SameTrace(s, a);
    if s.contexts[g].phase.Streaming? || s.contexts[g].phase.AwaitTts? {
      EnterCancelledSound(a, g);
    } else {
      SameTrace(a, s.CancelDelivered(g));
    }
  }

  lemma CancelEndsSound(s: Server, g: nat)
    requires Inv(s) && Sound(s) && Enabled(s, CancelEnds(g))
    ensures Sound(s.CancelResumes(g))
  {
    var s' := s.(cancelling := s.cancelling - {g});
    SameTrace(s, s');
    if !s.contexts[g].finalized {
      EndSpeechSound(s', g, CutOff);
    }
  }

  lemma CancelSound(s: Server, generation: Option<nat>, responseId: Option<nat>)
    requires Inv(s) && Sound(s)
    ensures Sound(s.CancelRequested(generation, responseId))
  {
    if s.CancelHits(generation, responseId) {
      var g := s.response.value;
      PurgeKeepsWellFormed(s.outbound.wire, s.outbound.queue, g);
    }
  }

  lemma StartSound(s: Server, kind: Kind, speech: string, call: Option<Call>)
    requires Inv(s) && Sound(s) && CleanStep(s, Start(kind, speech, call))
    ensures Sound(s.StartResponse(kind, speech, call))
  {
    if Creates(s, Start(kind, speech, call)) {
      SendLogged(s, Created(|s.contexts|));
      CreatedSound(s, s.StartResponse(kind, speech, call));
    } else {
      assert s.StartResponse(kind, speech, call) == s;
    }
  }

  /** A created event opens the newest response in the trace. */
  lemma CreatedSound(s: Server, s': Server)
    requires Sound(s) && !Orphan(s) && s.response.None?
    requires |s'.contexts| == |s.contexts| + 1 && s'.contexts[..|s.contexts|] == s.contexts
    requires var c := Newest(s');
             !c.finalized && c.text == "" && !c.textDone && !c.audioDone && !c.speaking && c.audioSequence == 0
    requires WellFormed(s.outbound.Log())
    requires Parse(s'.outbound.Log()) == NextOption(Parse(s.outbound.Log()), Created(|s.contexts|))
    ensures Sound(s')
  {
    forall h: nat | h + 1 < |s'.contexts|
      ensures s'.contexts[h].finalized
    {
      assert s'.contexts[h] == s.contexts[h];
    }
  }

  lemma FrameSound(s: Server, g: nat, frame: seq<byte>)
    requires Inv(s) && Sound(s) && Enabled(s, Frame(g, frame))
    ensures Sound(s.AudioFrame(g, frame))
  {
    if s.Current(g) {
      assert ContextOk(s, g);
      var e := AudioDelta(g, s.contexts[g].audioSequence, frame);
      assert g in s.everCancelled ==> CancelledIsSilent(s, g);
      SendLogged(s, e);
    }
  }

  /** The sender moves events from the queue to the wire; none is skipped. */
  lemma TakeMovesOne(s: Server)
    requires Inv(s) && Enabled(s, Take)
    ensures !s.outbound.Suppressed(s.outbound.queue[0])
    ensures Apply(s, Take).outbound.Log() == s.outbound.Log()
    ensures Apply(s, Take).outbound.wire == s.outbound.wire + [s.outbound.queue[0]]
  {
    var e := s.outbound.queue[0];
    assert e in s.outbound.queue && (e.AudioDelta? ==> AudioOf(e, e.generation));
    assert e.AudioDelta? && e.generation in s.everCancelled ==> CancelledIsSilent(s, e.generation);
  }

  /** The turn and the pending call play no part in the trace. */
  lemma TurnedSound(s: Server, turned: Server)
    requires Inv(s) && Sound(s) && (turned.pending == s.pending || turned.pending.None?)
    requires turned == s.(turnId := turned.turnId, turns := turned.turns, revision := turned.revision,
                          pending := turned.pending)
    ensures Inv(turned) && Sound(turned)
  {
    SettingsChange(s, turned);
    SameTrace(s, turned);
  }

  lemma BargeInSound(s: Server, interrupt: bool)
    requires Inv(s) && Sound(s) && Enabled(s, BargeIn(interrupt))
    ensures Sound(s.SpeechStarts(interrupt))
  {
    var turned := s.(revision := s.revision + 1, turnId := Some(s.turns), turns := s.turns + 1, pending := None);
    TurnedSound(s, turned);
    if interrupt && s.CancelHits(None, None) {
      assert s.SpeechStarts(interrupt) == turned.CancelRequested(None, None);
      CancelSound(turned, None, None);
    } else {
      assert s.SpeechStarts(interrupt) == turned.Send(Notice);
      NoticeSound(turned);
    }
  }

  lemma OpenTurnSound(s: Server)
    requires Inv(s) && Sound(s)
    ensures Sound(s.OpensTurn())
  {
    var turned := s.(revision := s.revision + 1, turnId := Some(s.turns), turns := s.turns + 1);
    TurnedSound(s, turned);
    NoticeSound(turned);
  }

  lemma ItemSound(s: Server, item: Item, kept: bool)
    requires Inv(s) && Sound(s) && Enabled(s, CreateItem(item, kept))
    ensures Sound(s.ItemCreated(item, kept))
  {
    var s' := s.ItemCreated(item, kept);
    if s' != s {
      var unsent := s.(pending := s'.pending, exchanges := s'.exchanges);
      SameTrace(s, unsent);
      NoticeSound(unsent);
      assert s' == unsent.Send(Notice);
    }
  }

  lemma RestSound(s: Server, step: Step)
    requires Inv(s) && Sound(s) && Enabled(s, step)
    requires step.Take? || step.Transmitted? || step.CloseReplay? || step.Configure? || step.ForgetTurn?
    ensures Sound(Apply(s, step))
  {
    if step.Take? {
      TakeMovesOne(s);
    }
    SameTrace(s, Apply(s, step));
  }

  lemma StepKeepsSound(s: Server, step: Step)
    requires Inv(s) && Sound(s) && Enabled(s, step) && CleanStep(s, step)
    ensures Sound(Apply(s, step))
  {
    match step
    case Start(kind, speech, call) => StartSound(s, kind, speech, call);
    case Begin(g, fits) => BeginSound(s, g, fits);
    case Text(g, delta) => TextSound(s, g, delta);
    case ToolCall(g, call) => ToolCallSound(s, g, call);
    case End(g) => EndSound(s, g);
    case Fail(g) =>
      assert ContextOk(s, g);
      EnterFailedSound(s, g);
    case SpeechDone(g, kept) => SpeechDoneSound(s, g, kept);
    case CleanedUp(g) => CleanedUpSound(s, g);
    case Cancelled(g) => CancelledSound(s, g);
    case Cancel(generation, responseId) => CancelSound(s, generation, responseId);
    case CancelEnds(g) => CancelEndsSound(s, g);
    case Frame(g, frame) => FrameSound(s, g, frame);
    case Other => NoticeSound(s);
    case BargeIn(interrupt) => BargeInSound(s, interrupt);
    case OpenTurn => OpenTurnSound(s);
    case CreateItem(item, kept) => ItemSound(s, item, kept);
    case _ => RestSound(s, step);
  }

  // ---- How the log moves, and what stays on it ----

  /** A step extends the log or takes the queued audio of a cancelled response out of it. */
  lemma LogMoves(s: Server, step: Step)
    requires Inv(s) && Enabled(s, step)
    ensures var o, o' := s.outbound, Apply(s, step).outbound;
            || o.Log() <= o'.Log()
            || (s.response.Some? && o'.wire == o.wire && o'.queue == Purge(o.queue, s.response.value))
  {
    if step.Take? {
      TakeMovesOne(s);
    }
  }

  lemma OverlapPersists(s: Server, step: Step)
    requires Inv(s) && Enabled(s, step) && Client.Overlaps(s.outbound.Log())
    ensures Client.Overlaps(Apply(s, step).outbound.Log())
  {
    LogMoves(s, step);
    var o, o' := s.outbound, Apply(s, step).outbound;
    if o.Log() <= o'.Log() {
      Client.OverlapStays(o.Log(), o'.Log());
    } else {
      Client.PurgeKeepsOverlap(o.wire, o.queue, s.response.value);
    }
  }

  lemma {:induction false} RunOverlapPersists(s: Server, steps: seq<Step>)
    requires Inv(s) && Possible(s, steps) && Client.Overlaps(s.outbound.Log())
    ensures Client.Overlaps(Execute(s, steps).outbound.Log())
    decreases |steps|
  {
    if steps == [] {
    } else {
      OverlapPersists(s, steps[0]);
      StepKeepsInv(s, steps[0]);
      RunOverlapPersists(Apply(s, steps[0]), steps[1..]);
    }
  }

  lemma UncleanStartOverlaps(s: Server, step: Step)
    requires Inv(s) && Sound(s) && Enabled(s, step) && !CleanStep(s, step)
    ensures Client.Overlaps(Apply(s, step).outbound.Log())
  {
    var log, log' := s.outbound.Log(), Apply(s, step).outbound.Log();
    Client.ParsedOpen(log);
    assert log' == log + [Created(|s.contexts|)];
    assert log'[..|log|] == log;
  }

  lemma {:induction false} TraceOfRun(s: Server, steps: seq<Step>)
    requires Inv(s) && Sound(s) && Possible(s, steps)
    ensures CleanStarts(s, steps) ==> Sound(Execute(s, steps))
    ensures !CleanStarts(s, steps) ==> Client.Overlaps(Execute(s, steps).outbound.Log())
    decreases |steps|
  {
    if steps == [] {
    } else {
      StepKeepsInv(s, steps[0]);
      if CleanStep(s, steps[0]) {
        StepKeepsSound(s, steps[0]);
        TraceOfRun(Apply(s, steps[0]), steps[1..]);
      } else {
        UncleanStartOverlaps(s, steps[0]);
        RunOverlapPersists(Apply(s, steps[0]), steps[1..]);
      }
    }
  }

  lemma InitialSound()
    ensures Inv(INITIAL) && Sound(INITIAL)
  {
    assert INITIAL.outbound.Log() == [];
  }

  /**
   Over all runs: everything the server sends is accepted by every client, however it
   interrupts, if and only if no response was created in an orphaned state.
   */
  lemma AcceptedExactlyWhenStartsAreClean(steps: seq<Step>)
    requires Possible(INITIAL, steps)
    ensures Client.Accepts(Execute(INITIAL, steps).outbound.Log()) <==> CleanStarts(INITIAL, steps)
  {
    InitialSound();
    TraceOfRun(INITIAL, steps);
    var log := Execute(INITIAL, steps).outbound.Log();
    if CleanStarts(INITIAL, steps) {
      Client.WellFormedIsAccepted(log);
    } else {
      Client.OverlapIsRejected(log);
    }
  }

  /** What has reached the wire of a clean run is itself a well-formed, accepted trace. */
  lemma WireOfCleanRun(steps: seq<Step>)
    requires Possible(INITIAL, steps) && CleanStarts(INITIAL, steps)
    ensures var wire := Execute(INITIAL, steps).outbound.wire;
            WellFormed(wire) && Client.Accepts(wire)
  {
    InitialSound();
    TraceOfRun(INITIAL, steps);
    var o := Execute(INITIAL, steps).outbound;
    ParsePrefix(o.Log(), |o.wire|);
    assert o.Log()[..|o.wire|] == o.wire;
    Client.WellFormedIsAccepted(o.wire);
  }

  // ---- When responses can overlap ----

  /** The step cancels a response whose runner is cleaning up after a failure. */
  predicate CancelsFailing(s: Server, step: Step) {
    && s.response.Some? && s.response.value < |s.contexts|
    && s.contexts[s.response.value].phase.FailCleanup?
    && (match step
        case Cancel(generation, responseId) => s.CancelHits(generation, responseId)
        case BargeIn(interrupt) => interrupt && s.CancelHits(None, None)
        case _ => false)
  }

  /** It does so while no call is pending, which would keep a reply from starting. */
  predicate Risky(s: Server, step: Step) {
    CancelsFailing(s, step) && (step.BargeIn? || s.pending.None?)
  }

  predicate NeverRisky(s: Server, steps: seq<Step>)
    requires Possible(s, steps)
    decreases |steps|
  {
    steps != [] ==> !Risky(s, steps[0]) && NeverRisky(Apply(s, steps[0]), steps[1..])
  }

  /** Nothing can start: the consumer waits for the newest response, and a call is pending. */
  predicate Held(s: Server) {
    s.contexts != [] && s.pending.Some? && |s.contexts| - 1 in s.cancelling
  }

  lemma NothingStartsWhileHeld(s: Server, step: Step)
    requires Held(s) && Enabled(s, step)
    ensures !Creates(s, step)
  {
  }

  /** No orphan, and none in the making, unless nothing can start. */
  predicate Attended(s: Server) {
    s.contexts != [] ==>
      && (s.response.None? ==> Newest(s).finalized || Held(s))
      && (Newest(s).phase.FailCleanup? && Newest(s).cancelRequested ==> Held(s))
  }

  lemma EndEarlyAttended(s: Server, g: nat, ending: Ending)
    requires g + 1 == |s.contexts|
    ensures Attended(s.EndEarly(g, ending))
  {
    EndEarlyOver(s, g, ending);
  }

  lemma EmitCallAttended(s: Server, g: nat)
    requires g + 1 == |s.contexts| && s.contexts[g].call.Some?
    ensures Attended(s.EmitCall(g).Leave(g))
  {
    FinalizeSilent(s.(pending := Some(s.Issued(g))).Send(CallDone(g, s.contexts[g].call.value)), g, ToolCalled);
  }

  lemma EnterAttended(s: Server, g: nat)
    requires g + 1 == |s.contexts| && s.response == Some(g) && !s.contexts[g].cancelRequested
    ensures Attended(s.EnterCancelled(g)) && Attended(s.EnterFailed(g))
  {
    EndEarlyAttended(s, g, CutOff);
    EndEarlyAttended(s.Send(Notice), g, Ending.Failed);
  }

  lemma StartAttended(s: Server, kind: Kind, speech: string, call: Option<Call>)
    requires Inv(s) && Attended(s) && Enabled(s, Start(kind, speech, call))
    ensures Attended(s.StartResponse(kind, speech, call))
  {
  }

  lemma BeginAttended(s: Server, g: nat, fits: bool)
    requires Inv(s) && Attended(s) && Enabled(s, Begin(g, fits))
    ensures Attended(s.RunnerBegins(g, fits))
  {
    assert ContextOk(s, g);
    match s.contexts[g].kind
    case ModelReply =>
    case DirectSpeak =>
      var c := s.contexts[g];
      var a := s.With(g, c.(text := c.speech)).Send(TextDelta(g, c.speech));
      SendTextDoneSilent(a, g);
    case DeferredCall =>
      EmitCallAttended(s, g);
      EndEarlyAttended(s, g, CutOff);
  }

  lemma ModelAttended(s: Server, step: Step)
    requires Inv(s) && Attended(s) && Enabled(s, step)
    requires step.Text? || step.ToolCall?
    ensures Attended(Apply(s, step))
  {
    assert ContextOk(s, step.g);
    EnterAttended(s, step.g);
  }

  lemma EndAttended(s: Server, g: nat)
    requires Inv(s) && Attended(s) && Enabled(s, End(g))
    ensures Attended(s.ModelEnds(g))
  {
    assert ContextOk(s, g);
    if s.contexts[g].call.Some? && s.contexts[g].text == "" {
      EmitCallAttended(s, g);
    } else if s.contexts[g].speaking {
      SendTextDoneSilent(s, g);
    } else {
      EnterAttended(s, g);
    }
  }

  lemma SpeechDoneAttended(s: Server, g: nat, kept: bool)
    requires Inv(s) && Attended(s) && Enabled(s, SpeechDone(g, kept))
    ensures Attended(s.TtsFinishes(g, kept))
  {
    assert ContextOk(s, g);
    SendAudioDoneSilent(s, g);
    FinalizeSilent(s.SendAudioDone(g), g, Completed);
    EnterAttended(s.SendAudioDone(g).Finalize(g, Completed), g);
  }

  lemma CancelAttended(s: Server, generation: Option<nat>, responseId: Option<nat>)
    requires Inv(s) && Attended(s) && !Risky(s, Step.Cancel(generation, responseId))
    ensures Attended(s.CancelRequested(generation, responseId))
  {
  }

  lemma CancelledAttended(s: Server, g: nat)
    requires Inv(s) && Attended(s) && Enabled(s, Cancelled(g))
    ensures Attended(s.CancelDelivered(g))
  {
    assert ContextOk(s, g);
    EnterAttended(s.With(g, s.contexts[g].(cancelRequested := false)), g);
  }

  /** What concerns an older response does not matter here. */
  lemma AttendedAside(s: Server, s': Server, g: nat)
    requires Attended(s) && g + 1 < |s.contexts| && Silent(s, s', g) && s'.cancelling == s.cancelling
    ensures Attended(s')
  {
    assert Newest(s') == Newest(s);
  }

  lemma CancelEndsAttended(s: Server, g: nat)
    requires Inv(s) && Attended(s) && Enabled(s, CancelEnds(g))
    ensures Attended(s.CancelResumes(g))
  {
    var resumed := s.(cancelling := s.cancelling - {g});
    if s.contexts[g].finalized {
    } else if g + 1 == |s.contexts| {
      EndSpeechSilent(resumed, g, CutOff);
    } else {
      EndSpeechSilent(resumed, g, CutOff);
      AttendedAside(resumed, resumed.EndSpeech(g, CutOff), g);
    }
  }

  lemma BargeInAttended(s: Server, interrupt: bool)
    requires Inv(s) && Attended(s) && Enabled(s, BargeIn(interrupt)) && !Risky(s, BargeIn(interrupt))
    ensures Attended(s.SpeechStarts(interrupt))
  {
    var turned := s.(revision := s.revision + 1, turnId := Some(s.turns), turns := s.turns + 1, pending := None);
    SettingsChange(s, turned);
    if interrupt && s.CancelHits(None, None) {
      CancelAttended(turned, None, None);
    }
  }

  lemma OtherAttended(s: Server, step: Step)
    requires Inv(s) && Attended(s) && Enabled(s, step)
    requires step.Frame? || step.Take? || step.Transmitted? || step.Other? || step.OpenTurn? || step.ForgetTurn?
             || step.CloseReplay? || step.Configure?
    ensures Attended(Apply(s, step))
  {
  }

  lemma ItemAttended(s: Server, item: Item, kept: bool)
    requires Inv(s) && Attended(s) && Enabled(s, CreateItem(item, kept))
    ensures Attended(s.ItemCreated(item, kept))
  {
  }

  lemma StepKeepsAttended(s: Server, step: Step)
    requires Inv(s) && Attended(s) && Enabled(s, step) && !Risky(s, step)
    ensures Attended(Apply(s, step))
  {
    match step
    case Start(kind, speech, call) => StartAttended(s, kind, speech, call);
    case Begin(g, fits) => BeginAttended(s, g, fits);
    case Text(_, _) => ModelAttended(s, step);
    case ToolCall(_, _) => ModelAttended(s, step);
    case End(g) => EndAttended(s, g);
    case Fail(g) =>
      assert ContextOk(s, g);
      EnterAttended(s, g);
    case CleanedUp(g) =>
      assert ContextOk(s, g);
      EndEarlyAttended(s, g, CutOff);
      EndEarlyAttended(s.Send(Notice), g, Ending.Failed);
    case SpeechDone(g, kept) => SpeechDoneAttended(s, g, kept);
    case Cancelled(g) => CancelledAttended(s, g);
    case CancelEnds(g) => CancelEndsAttended(s, g);
    case Cancel(generation, responseId) => CancelAttended(s, generation, responseId);
    case BargeIn(interrupt) => BargeInAttended(s, interrupt);
    case CreateItem(item, kept) => ItemAttended(s, item, kept);
    case _ => OtherAttended(s, step);
  }

  /** Overlap needs a cancellation that lands on a runner cleaning up after a failure, with no call pending. */
  lemma {:induction false} CleanUnlessRisky(s: Server, steps: seq<Step>)
    requires Inv(s) && Attended(s) && Possible(s, steps) && NeverRisky(s, steps)
    ensures CleanStarts(s, steps)
    decreases |steps|
  {
    if steps == [] {
    } else {
      StepKeepsInv(s, steps[0]);
      StepKeepsAttended(s, steps[0]);
      CleanUnlessRisky(Apply(s, steps[0]), steps[1..]);
    }
  }

  /** Every client accepts a run without a risky step. */
  lemma AcceptedUnlessRisky(steps: seq<Step>)
    requires Possible(INITIAL, steps) && NeverRisky(INITIAL, steps)
    ensures Client.Accepts(Execute(INITIAL, steps).outbound.Log())
  {
    InitialSound();
    CleanUnlessRisky(INITIAL, steps);
    AcceptedExactlyWhenStartsAreClean(steps);
  }

  /** After a risky step: the runner leaves, and a reply starts before the cancelling handler resumes. */
  function Accident(risky: Step, g: nat): seq<Step> {
    [risky, Cancelled(g), Start(ModelReply, "", None)]
  }

  /** The first two steps of the accident leave the response without a runner, and no call pending. */
  lemma AccidentOrphans(s: Server, risky: Step)
    requires Inv(s) && Enabled(s, risky) && Risky(s, risky)
    ensures var g, s1 := s.response.value, Apply(s, risky);
            && Enabled(s1, Cancelled(g))
            && var s2 := Apply(s1, Cancelled(g)); Orphan(s2) && s2.pending.None?
  {
    assert ContextOk(s, s.response.value);
  }

  /** Conversely, from every state a risky step can be continued to an overlap. */
  lemma RiskyStepOverlaps(s: Server, risky: Step)
    requires Inv(s) && Sound(s) && Enabled(s, risky) && Risky(s, risky)
    ensures var steps := Accident(risky, s.response.value);
            Possible(s, steps) && Client.Overlaps(Execute(s, steps).outbound.Log())
  {
    var steps := Accident(risky, s.response.value);
    AccidentOrphans(s, risky);
    var s1 := Apply(s, steps[0]);
    var s2 := Apply(s1, steps[1]);
    StepKeepsInv(s, steps[0]);
    StepKeepsSound(s, steps[0]);
    StepKeepsInv(s1, steps[1]);
    StepKeepsSound(s1, steps[1]);
    UncleanStartOverlaps(s2, steps[2]);
    ThreeSteps(s, steps[0], steps[1], steps[2]);
  }

  lemma ExecuteCons(s: Server, a: Step, rest: seq<Step>)
    requires Enabled(s, a) && Possible(Apply(s, a), rest)
    ensures Possible(s, [a] + rest) && Execute(s, [a] + rest) == Execute(Apply(s, a), rest)
  {
    assert ([a] + rest)[1..] == rest;
  }

  lemma ThreeSteps(s: Server, a: Step, b: Step, c: Step)
    requires Enabled(s, a) && Enabled(Apply(s, a), b) && Enabled(Apply(Apply(s, a), b), c)
    ensures Possible(s, [a, b, c])
    ensures Execute(s, [a, b, c]) == Apply(Apply(Apply(s, a), b), c)
  {
    ExecuteCons(Apply(Apply(s, a), b), c, []);
    ExecuteCons(Apply(s, a), b, [c] + []);
    ExecuteCons(s, a, [b] + ([c] + []));
    assert [a] + ([b] + ([c] + [])) == [a, b, c];
  }

  lemma {:induction false} ExecuteConcat(s: Server, first: seq<Step>, second: seq<Step>)
    requires Possible(s, first) && Possible(Execute(s, first), second)
    ensures Possible(s, first + second) && Execute(s, first + second) == Execute(Execute(s, first), second)
    decreases |first|
  {
    if first == [] {
      assert first + second == second;
    } else {
      ExecuteConcat(Apply(s, first[0]), first[1..], second);
      assert (first + second)[1..] == first[1..] + second;
    }
  }

  /** A spoken filler whose synthesis fails. */
  const FAILING_FILLER: seq<Step> := [Start(DirectSpeak, "One moment.", None), Begin(0, true), Fail(0)]

  lemma FailingFillerFails()
    ensures Possible(INITIAL, FAILING_FILLER)
    ensures var s := Execute(INITIAL, FAILING_FILLER);
            Enabled(s, Step.Cancel(None, None)) && Risky(s, Step.Cancel(None, None)) && s.response == Some(0)
    ensures CleanStarts(INITIAL, FAILING_FILLER)
  {
    var a, b, c := FAILING_FILLER[0], FAILING_FILLER[1], FAILING_FILLER[2];
    var s1 := Apply(INITIAL, a);
    assert |s1.contexts| == 1 && s1.response == Some(0) && s1.contexts[0].phase.NotStarted? && s1.Current(0);
    var s2 := Apply(s1, b);
    assert |s2.contexts| == 1 && s2.contexts[0].phase.AwaitTts? && s2.contexts[0].speaking;
    ThreeSteps(INITIAL, a, b, c);
    assert FAILING_FILLER[1..] == [b, c] && FAILING_FILLER[1..][1..] == [c] && [c][1..] == [];
  }

  /** So some run of the protocol does make the client reject a trace. */
  lemma OverlapHappens()
    ensures var steps := FAILING_FILLER + Accident(Step.Cancel(None, None), 0);
            Possible(INITIAL, steps) && !Client.Accepts(Execute(INITIAL, steps).outbound.Log())
  {
    InitialSound();
    FailingFillerFails();
    var s, cancel := Execute(INITIAL, FAILING_FILLER), Step.Cancel(None, None);
    RunKeepsInv(INITIAL, FAILING_FILLER);
    TraceOfRun(INITIAL, FAILING_FILLER);
    RiskyStepOverlaps(s, cancel);
    ExecuteConcat(INITIAL, FAILING_FILLER, Accident(cancel, 0));
    Client.OverlapIsRejected(Execute(s, Accident(cancel, 0)).outbound.Log());
  }

  // ---- Cancelled audio ----

  lemma WireGrows(s: Server, step: Step, g: nat)
    requires Inv(s) && Enabled(s, step) && g in s.everCancelled
    ensures var wire, wire' := s.outbound.wire, Apply(s, step).outbound.wire;
            wire <= wire' && forall i :: |wire| <= i < |wire'| ==> !AudioOf(wire'[i], g)
    ensures g in Apply(s, step).everCancelled
  {
    if step.Take? {
      TakeMovesOne(s);
      assert CancelledIsSilent(s, g);
      assert s.outbound.queue[0] in s.outbound.queue;
    }
  }

  /** From the moment a generation is cancelled, no audio of it starts to be sent, in any continuation. */
  lemma {:induction false} CancelledAudioStaysUnsent(s: Server, steps: seq<Step>, g: nat)
    requires Inv(s) && Possible(s, steps) && g in s.everCancelled
    ensures var wire, wire' := s.outbound.wire, Execute(s, steps).outbound.wire;
            wire <= wire' && forall i :: |wire| <= i < |wire'| ==> !AudioOf(wire'[i], g)
    decreases |steps|
  {
    if steps == [] {
    } else {
      var s' := Apply(s, steps[0]);
      WireGrows(s, steps[0], g);
      StepKeepsInv(s, steps[0]);
      CancelledAudioStaysUnsent(s', steps[1..], g);
      var wire, wire' := s.outbound.wire, Execute(s, steps).outbound.wire;
      forall i | |wire| <= i < |wire'|
        ensures !AudioOf(wire'[i], g)
      {
        if i < |s'.outbound.wire| {
          assert wire'[i] == s'.outbound.wire[i];
        }
      }
    }
  }

  /** Every cancellation that takes effect marks its generation. */
  lemma CancelMarks(s: Server, generation: Option<nat>, responseId: Option<nat>)
    requires Inv(s) && s.CancelHits(generation, responseId)
    ensures s.response.value in s.CancelRequested(generation, responseId).everCancelled
    ensures generation.Some? ==> generation == s.response
    ensures NoAudioQueued(s.CancelRequested(generation, responseId), s.response.value)
  {
    CancelKeeps(s, generation, responseId);
    assert CancelledIsSilent(s.CancelRequested(generation, responseId), s.response.value);
  }

  // ---- Tool calls ----

  /**
   A pending call stays until one output answers it field by field, or the caller
   speaks; in particular no response overwrites it.
   */
  lemma PendingCallSettlesOnce(s: Server, step: Step)
    requires Inv(s) && Enabled(s, step) && s.pending.Some?
    ensures var s' := Apply(s, step);
            || (s'.pending == s.pending && s'.exchanges == s.exchanges)
            || (s'.pending.None? && s'.exchanges == s.exchanges && step.BargeIn?)
            || (s'.pending.None? && step.CreateItem? && step.item.OutputItem?
                && step.item.output.callId == s.pending.value.call.callId
                && step.item.output.name == s.pending.value.call.name
                && step.item.output.origin.turnId == s.pending.value.origin.turnId
                && step.item.output.origin.revision == s.pending.value.origin.revision
                && step.item.output.origin.generation == s.pending.value.origin.generation
                && step.item.output.origin.responseId == s.pending.value.origin.responseId
                && s'.exchanges == s.exchanges + [(s.pending.value, step.item.output)])
  {
    match step
    case Begin(g, fits) => PendingRunner(s, step);
    case Text(g, delta) => PendingRunner(s, step);
    case ToolCall(g, call) => PendingRunner(s, step);
    case End(g) => PendingRunner(s, step);
    case Fail(g) => PendingRunner(s, step);
    case SpeechDone(g, kept) => PendingRunner(s, step);
    case CleanedUp(g) => PendingRunner(s, step);
    case Cancelled(g) => PendingRunner(s, step);
    case _ =>
  }

  /** Conversely, an output that repeats every field and is kept settles the call, unless a reply is active. */
  lemma AnswerSettles(s: Server, call: FunctionCall, output: CallOutput)
    requires Inv(s) && ConsumerFree(s) && s.pending == Some(call)
    requires s.response.Some? ==> s.contexts[s.response.value].kind.DirectSpeak?
    requires output.callId == call.call.callId && output.name == call.call.name && output.origin == call.origin
    ensures var step := CreateItem(OutputItem(output), true);
            && Enabled(s, step) && Apply(s, step).pending.None?
            && Apply(s, step).exchanges == s.exchanges + [(call, output)]
            && Apply(s, step).outbound.queue == s.outbound.queue + [Notice]
  {
  }

  /** Speech of the caller drops it. */
  lemma SpeechDropsTheCall(s: Server, interrupt: bool)
    requires Inv(s) && Enabled(s, BargeIn(interrupt))
    ensures Apply(s, BargeIn(interrupt)).pending.None?
  {
  }

  // ---- Cancellation and turns ----

  /** The cancellation names the active response, or none, and finds it in force. */
  predicate Reaches(s: Server, generation: Option<nat>, responseId: Option<nat>) {
    && s.response.Some? && s.response.value < |s.contexts| && s.Current(s.response.value)
    && (generation.None? || generation == s.response)
    && (responseId.None? || responseId == s.response)
  }

  /** It takes effect exactly then: the token goes out of force and the runner is told to stop. */
  lemma CancelTakesEffect(s: Server, generation: Option<nat>, responseId: Option<nat>)
    requires Inv(s)
    ensures var s' := s.CancelRequested(generation, responseId);
            if Reaches(s, generation, responseId) then
              && var g := s.response.value;
                 && !s'.Current(g) && s'.contexts[g].cancelRequested
                 && g in s'.cancelling && s'.outbound.queue == Purge(s.outbound.queue, g)
            else s' == s
  {
    if s.response.Some? {
      assert ContextOk(s, s.response.value);
    }
  }

  lemma PendingRunner(s: Server, step: Step)
    requires Inv(s) && Enabled(s, step) && s.pending.Some?
    requires step.Begin? || step.Text? || step.ToolCall? || step.End? || step.Fail?
             || step.SpeechDone? || step.CleanedUp? || step.Cancelled?
    ensures Apply(s, step).pending == s.pending && Apply(s, step).exchanges == s.exchanges
  {
    assert ContextOk(s, step.g);
  }

  /** A call appears only when its response ends, or is restored before the tools are frozen. */
  lemma PendingCallAppears(s: Server, step: Step)
    requires Inv(s) && Enabled(s, step) && s.pending.None? && Apply(s, step).pending.Some?
    ensures ((step.End? || step.Begin?) && Apply(s, step).contexts[step.g].finalized)
            || (step.CreateItem? && step.item.CallItem? && !s.toolsFrozen)
  {
    if step.Begin? || step.End? {
      assert ContextOk(s, step.g);
    }
  }

  // ---- What a finished response has closed ----

  /** A finished response that could speak has closed its text and its audio, in every run. */
  lemma FinishedSpeechIsClosed(steps: seq<Step>, g: nat)
    requires Possible(INITIAL, steps) && g < |Execute(INITIAL, steps).contexts|
    ensures var c := Execute(INITIAL, steps).contexts[g];
            c.finalized && (c.call.None? || c.speaking) ==> c.textDone && c.audioDone
  {
    InitialSound();
    RunKeepsInv(INITIAL, steps);
    assert ContextOk(Execute(INITIAL, steps), g);
  }

  // ---- A runner that never ran ----

  /** The active response belongs to a task that is gone. */
  predicate Stuck(s: Server) {
    s.response.Some? && s.response.value < |s.contexts| && s.contexts[s.response.value].phase.Exited?
  }

  /** Cancelling a runner before its first step leaves the session without further responses. */
  lemma CancelledBeforeFirstStep(s: Server, g: nat)
    requires Inv(s) && Enabled(s, Cancelled(g)) && s.contexts[g].phase.NotStarted?
    ensures Stuck(s.CancelDelivered(g))
  {
    assert ContextOk(s, g);
  }

  /** Without a live runner nothing but cancellations, frames and the sender can move. */
  lemma OnlyExited(s: Server)
    requires Inv(s) && Stuck(s)
    ensures forall h: nat :: h < |s.contexts| ==> s.contexts[h].phase.Exited? && !s.contexts[h].cancelRequested
  {
    forall h: nat | h < |s.contexts|
      ensures s.contexts[h].phase.Exited? && !s.contexts[h].cancelRequested
    {
      assert ContextOk(s, h);
    }
  }

  predicate RunnerMoves(step: Step) {
    step.Begin? || step.Text? || step.ToolCall? || step.End? || step.Fail? || step.CleanedUp?
    || step.SpeechDone? || step.Cancelled?
  }

  lemma NoRunnerMoves(s: Server, step: Step)
    requires Inv(s) && Stuck(s) && Enabled(s, step)
    ensures !RunnerMoves(step)
  {
    OnlyExited(s);
  }

  lemma StuckStep(s: Server, step: Step)
    requires Inv(s) && Stuck(s) && Enabled(s, step)
    ensures Stuck(Apply(s, step)) && Apply(s, step).response == s.response
    ensures |Apply(s, step).contexts| == |s.contexts|
  {
    NoRunnerMoves(s, step);
    if step.CancelEnds? {
      EndSpeechSilent(s.(cancelling := s.cancelling - {step.g}), step.g, CutOff);
      OnlyExited(s);
    } else {
      StuckRest(s, step);
    }
  }

  lemma StuckRest(s: Server, step: Step)
    requires Stuck(s) && Enabled(s, step) && !RunnerMoves(step) && !step.CancelEnds?
    ensures Stuck(Apply(s, step)) && Apply(s, step).response == s.response
    ensures |Apply(s, step).contexts| == |s.contexts|
  {
  }

  // ---- What makes a session stuck ----

  /** A cancellation reaches a runner that has not begun. */
  predicate CancelsEarly(s: Server, step: Step) {
    step.Cancelled? && step.g < |s.contexts| && s.contexts[step.g].phase.NotStarted?
  }

  lemma EndEarlyFrees(s: Server, g: nat, ending: Ending)
    requires g < |s.contexts| && s.response == Some(g)
    ensures s.EndEarly(g, ending).response.None?
  {
    EndEarlyOver(s, g, ending);
  }

  lemma EnterFrees(s: Server, g: nat)
    requires g < |s.contexts| && s.response == Some(g)
    ensures !Stuck(s.EnterCancelled(g)) && !Stuck(s.EnterFailed(g))
  {
    EndEarlyFrees(s, g, CutOff);
    EndEarlyFrees(s.Send(Notice), g, Ending.Failed);
  }

  lemma BeginFrees(s: Server, g: nat, fits: bool)
    requires Inv(s) && Enabled(s, Begin(g, fits))
    ensures !Stuck(s.RunnerBegins(g, fits))
  {
    assert ContextOk(s, g);
    match s.contexts[g].kind
    case ModelReply =>
    case DirectSpeak =>
      var c := s.contexts[g];
      SendTextDoneSilent(s.With(g, c.(text := c.speech)).Send(TextDelta(g, c.speech)), g);
    case DeferredCall =>
      FinalizeSilent(s.(pending := Some(s.Issued(g))).Send(CallDone(g, s.contexts[g].call.value)), g, ToolCalled);
      EndEarlyFrees(s, g, CutOff);
  }

  lemma ModelFrees(s: Server, step: Step)
    requires Inv(s) && Enabled(s, step) && (step.Text? || step.ToolCall? || step.Fail?)
    ensures !Stuck(Apply(s, step))
  {
    assert ContextOk(s, step.g);
    EnterFrees(s, step.g);
  }

  lemma EndFrees(s: Server, g: nat)
    requires Inv(s) && Enabled(s, End(g))
    ensures !Stuck(s.ModelEnds(g))
  {
    assert ContextOk(s, g);
    if s.contexts[g].call.Some? && s.contexts[g].text == "" {
      FinalizeSilent(s.(pending := Some(s.Issued(g))).Send(CallDone(g, s.contexts[g].call.value)), g, ToolCalled);
    } else if s.contexts[g].speaking {
      SendTextDoneSilent(s, g);
    } else {
      EnterFrees(s, g);
    }
  }

  lemma SpeechDoneFrees(s: Server, g: nat, kept: bool)
    requires Inv(s) && Enabled(s, SpeechDone(g, kept))
    ensures !Stuck(s.TtsFinishes(g, kept))
  {
    assert ContextOk(s, g);
    SendAudioDoneSilent(s, g);
    FinalizeSilent(s.SendAudioDone(g), g, Completed);
    EnterFrees(s.SendAudioDone(g).Finalize(g, Completed), g);
  }

  lemma CleanedUpFrees(s: Server, g: nat)
    requires Inv(s) && Enabled(s, CleanedUp(g))
    ensures !Stuck(s.CleanupEnds(g))
  {
    assert ContextOk(s, g);
    EndEarlyFrees(s, g, CutOff);
    EndEarlyFrees(s.Send(Notice), g, Ending.Failed);
  }

  lemma CancelledFrees(s: Server, g: nat)
    requires Inv(s) && Enabled(s, Cancelled(g))
    ensures Stuck(s.CancelDelivered(g)) <==> s.contexts[g].phase.NotStarted?
  {
    assert ContextOk(s, g);
    EnterFrees(s.With(g, s.contexts[g].(cancelRequested := false)), g);
  }

  lemma RestFrees(s: Server, step: Step)
    requires Inv(s) && Enabled(s, step) && !Stuck(s) && !RunnerMoves(step)
    ensures !Stuck(Apply(s, step))
  {
    if step.CancelEnds? {
      EndSpeechSilent(s.(cancelling := s.cancelling - {step.g}), step.g, CutOff);
    }
  }

  /** Exactly the delivery of a cancellation to a runner that has not begun makes a session stuck. */
  lemma StuckExactlyByEarlyCancel(s: Server, step: Step)
    requires Inv(s) && Enabled(s, step) && !Stuck(s)
    ensures Stuck(Apply(s, step)) <==> CancelsEarly(s, step)
  {
    match step
    case Begin(g, fits) => BeginFrees(s, g, fits);
    case Text(_, _) => ModelFrees(s, step);
    case ToolCall(_, _) => ModelFrees(s, step);
    case End(g) => EndFrees(s, g);
    case Fail(_) => ModelFrees(s, step);
    case SpeechDone(g, kept) => SpeechDoneFrees(s, g, kept);
    case CleanedUp(g) => CleanedUpFrees(s, g);
    case Cancelled(g) => CancelledFrees(s, g);
    case _ => RestFrees(s, step);
  }

  predicate NeverCancelsEarly(s: Server, steps: seq<Step>)
    requires Possible(s, steps)
    decreases |steps|
  {
    steps != [] ==> !CancelsEarly(s, steps[0]) && NeverCancelsEarly(Apply(s, steps[0]), steps[1..])
  }

  /** Over all runs: the session is stuck if and only if some runner was cancelled before it began. */
  lemma {:induction false} StuckExactlyAfterEarlyCancel(s: Server, steps: seq<Step>)
    requires Inv(s) && !Stuck(s) && Possible(s, steps)
    ensures Stuck(Execute(s, steps)) <==> !NeverCancelsEarly(s, steps)
    decreases |steps|
  {
    if steps == [] {
    } else {
      var next := Apply(s, steps[0]);
      StepKeepsInv(s, steps[0]);
      StuckExactlyByEarlyCancel(s, steps[0]);
      if CancelsEarly(s, steps[0]) {
        StuckForGood(next, steps[1..]);
      } else {
        StuckExactlyAfterEarlyCancel(next, steps[1..]);
      }
    }
  }

  /** A reply that is cancelled before its task has run. */
  const EARLY_CANCEL: seq<Step> := [Start(ModelReply, "", None), Step.Cancel(None, None), Cancelled(0)]

  /** It happens: this run from the initial state ends stuck. */
  lemma EarlyCancelHappens()
    ensures Possible(INITIAL, EARLY_CANCEL) && Stuck(Execute(INITIAL, EARLY_CANCEL))
  {
    var s1 := Apply(INITIAL, EARLY_CANCEL[0]);
    assert |s1.contexts| == 1 && s1.response == Some(0) && s1.contexts[0].phase.NotStarted? && s1.Current(0);
    var s2 := Apply(s1, EARLY_CANCEL[1]);
    assert |s2.contexts| == 1 && s2.contexts[0].cancelRequested && s2.contexts[0].phase.NotStarted?;
    assert s2.response == Some(0);
    ThreeSteps(INITIAL, EARLY_CANCEL[0], EARLY_CANCEL[1], EARLY_CANCEL[2]);
  }

  /** Once stuck, always stuck: no run creates another response. */
  lemma {:induction false} StuckForGood(s: Server, steps: seq<Step>)
    requires Inv(s) && Stuck(s) && Possible(s, steps)
    ensures Stuck(Execute(s, steps)) && Execute(s, steps).response == s.response
    ensures |Execute(s, steps).contexts| == |s.contexts|
    decreases |steps|
  {
    if steps == [] {
    } else {
      StuckStep(s, steps[0]);
      StepKeepsInv(s, steps[0]);
      StuckForGood(Apply(s, steps[0]), steps[1..]);
    }
  }
}
