/**
 How responses end, against a record of failures kept beside the run.

 `RunTellsOutcome`: over every run each response has at most one done event, exactly when
 it is finalized, and its status is cancelled if the generation was cancelled, that of a
 tool call if one was sent, failed if its runner failed, and completed otherwise.
 `ChecksNeverFire` says that the staleness checks of the runners are second to the
 delivery of the cancellation.
 */
module ResponseOutcome {
  import opened Options
  import opened Wire
  import opened ResponseProtocol
  import opened ResponseInvariant
  import opened ResponseRecord
  import T = Transport

  /** The endings of one generation in a trace, in order. */
  function Endings(trace: seq<Event>, generation: nat): seq<Ending> {
    if trace == [] then []
    else
      var e := trace[|trace| - 1];
      var before := Endings(trace[..|trace| - 1], generation);
      if e.Done? && e.generation == generation then before + [e.ending] else before
  }

  predicate SameEnds(a: seq<Event>, b: seq<Event>, g: nat) {
    Endings(a, g) == Endings(b, g) && CallsOf(a, g) == CallsOf(b, g)
  }

  lemma EndsSnoc(trace: seq<Event>, e: Event, g: nat)
    ensures Endings(trace + [e], g) ==
            if e.Done? && e.generation == g then Endings(trace, g) + [e.ending] else Endings(trace, g)
    ensures CallsOf(trace + [e], g) ==
            if e.CallDone? && e.generation == g then CallsOf(trace, g) + [e.call] else CallsOf(trace, g)
  {
    assert (trace + [e])[..|trace|] == trace;
  }

  lemma {:induction false} EndsPurge(wire: seq<Event>, queue: seq<Event>, gen: nat, g: nat)
    ensures SameEnds(wire + queue, wire + Purge(queue, gen), g)
    decreases |queue|
  {
    if queue == [] {
    } else {
      var front, e := queue[..|queue| - 1], queue[|queue| - 1];
      EndsPurge(wire, front, gen, g);
      assert wire + queue == (wire + front) + [e];
      EndsSnoc(wire + front, e, g);
      if !AudioOf(e, gen) {
        assert wire + Purge(queue, gen) == (wire + Purge(front, gen)) + [e];
        EndsSnoc(wire + Purge(front, gen), e, g);
      }
    }
  }

  // ---- The record of failures ----

  /** A runner fails by itself, by a second call, or by a stream without text and call. */
  predicate Fails(r: Record, s: Server, step: Step)
    requires r.Aligned(|s.contexts|) && Enabled(s, step)
  {
    match step
    case Fail(_) => true
    case ToolCall(g, _) => r.calls[g].Some?
    case End(g) => r.calls[g].None? && r.said[g] == ""
    case _ => false
  }

  function NoteFailure(r: Record, failed: set<nat>, s: Server, step: Step): set<nat>
    requires r.Aligned(|s.contexts|) && Enabled(s, step)
  {
    if Fails(r, s, step) then failed + {step.g} else failed
  }

  /** The status that the record expects of a response that has ended. */
  function Outcome(s: Server, failed: set<nat>, g: nat): Ending {
    if g in s.everCancelled then CutOff
    else if CallsOf(s.outbound.Log(), g) != [] then ToolCalled
    else if g in failed then Ending.Failed
    else Completed
  }

  predicate EndsOk(s: Server, failed: set<nat>, g: nat)
    requires g < |s.contexts|
  {
    var c, log := s.contexts[g], s.outbound.Log();
    && (c.finalized ==> Endings(log, g) == [Outcome(s, failed, g)])
    && (!c.finalized ==>
          && Endings(log, g) == [] && CallsOf(log, g) == []
          && (c.phase.FailCleanup? ==> g in failed)
          && (g in failed && g !in s.everCancelled ==> c.phase.FailCleanup?))
  }

  ghost predicate Tells(s: Server, failed: set<nat>) {
    && (forall g: nat :: g < |s.contexts| ==> EndsOk(s, failed, g))
    && (forall g: nat :: g >= |s.contexts| ==> SameEnds(s.outbound.Log(), [], g))
    && (forall g :: g in failed ==> g < |s.contexts|)
  }

  // ---- What a step adds for one response ----

  predicate Kept(c: Context, c': Context) {
    c'.finalized == c.finalized && c'.phase == c.phase
  }

  /** Only response `g` changes, and the trace gains these endings and calls of it. */
  ghost predicate Adds(s: Server, s': Server, g: nat, endings: seq<Ending>, calls: seq<Call>) {
    && g < |s.contexts| == |s'.contexts| && s'.everCancelled == s.everCancelled
    && (forall h: nat :: h < |s.contexts| && h != g ==> Kept(s.contexts[h], s'.contexts[h]))
    && (forall h: nat :: h != g ==> SameEnds(s.outbound.Log(), s'.outbound.Log(), h))
    && Endings(s'.outbound.Log(), g) == Endings(s.outbound.Log(), g) + endings
    && CallsOf(s'.outbound.Log(), g) == CallsOf(s.outbound.Log(), g) + calls
  }

  lemma AddsKeeps(s: Server, s': Server, g: nat, failed: set<nat>, failed': set<nat>,
                  endings: seq<Ending>, calls: seq<Call>)
    requires Tells(s, failed) && Adds(s, s', g, endings, calls)
    requires failed' == failed || failed' == failed + {g}
    requires EndsOk(s', failed', g)
    ensures Tells(s', failed')
  {
    forall h: nat | h < |s.contexts|
      ensures EndsOk(s', failed', h)
    {
      if h != g {
        assert EndsOk(s, failed, h) && Kept(s.contexts[h], s'.contexts[h]);
        assert SameEnds(s.outbound.Log(), s'.outbound.Log(), h);
      }
    }
    forall h: nat | h >= |s'.contexts|
      ensures SameEnds(s'.outbound.Log(), [], h)
    {
      assert SameEnds(s.outbound.Log(), s'.outbound.Log(), h) && SameEnds(s.outbound.Log(), [], h);
    }
  }

  lemma AddsNothing(s: Server, s': Server, g: nat)
    requires g < |s.contexts| == |s'.contexts| && s'.everCancelled == s.everCancelled
    requires s'.contexts == s.contexts[g := s'.contexts[g]]
    requires s'.outbound.Log() == s.outbound.Log()
    ensures Adds(s, s', g, [], [])
  {
  }

  /** At most one event is sent, and one context changes. */
  lemma AddsEvent(s: Server, s': Server, g: nat, e: Event)
    requires g < |s.contexts| == |s'.contexts| && s'.everCancelled == s.everCancelled
    requires s'.contexts == s.contexts[g := s'.contexts[g]] && (e.Notice? || e.generation == g)
    requires s'.outbound.Log() == s.outbound.Log() + [e]
    ensures Adds(s, s', g, if e.Done? then [e.ending] else [], if e.CallDone? then [e.call] else [])
  {
    var log := s.outbound.Log();
    forall h: nat
      ensures h != g ==> SameEnds(log, log + [e], h)
    {
      EndsSnoc(log, e, h);
    }
    EndsSnoc(log, e, g);
  }

  lemma AddsTwice(a: Server, b: Server, c: Server, g: nat,
                  e: seq<Ending>, f: seq<Ending>, x: seq<Call>, y: seq<Call>)
    requires Adds(a, b, g, e, x) && Adds(b, c, g, f, y)
    ensures Adds(a, c, g, e + f, x + y)
  {
    forall h: nat | h < |a.contexts| && h != g
      ensures Kept(a.contexts[h], c.contexts[h])
    {
      assert Kept(a.contexts[h], b.contexts[h]) && Kept(b.contexts[h], c.contexts[h]);
    }
    forall h: nat | h != g
      ensures SameEnds(a.outbound.Log(), c.outbound.Log(), h)
    {
      assert SameEnds(a.outbound.Log(), b.outbound.Log(), h) && SameEnds(b.outbound.Log(), c.outbound.Log(), h);
    }
  }

  function EndingOf(s: Server, g: nat, ending: Ending): seq<Ending>
    requires g < |s.contexts|
  {
    if s.contexts[g].finalized then [] else [ending]
  }

  lemma SendLogs(s: Server, e: Event)
    requires !e.AudioDelta?
    ensures s.Send(e).outbound.Log() == s.outbound.Log() + [e]
  {
  }

  lemma NoticeAdds(s: Server, g: nat)
    requires g < |s.contexts|
    ensures Adds(s, s.Send(Notice), g, [], [])
  {
    SendLogs(s, Notice);
    AddsEvent(s, s.Send(Notice), g, Notice);
  }

  lemma TextDoneAdds(s: Server, g: nat)
    requires g < |s.contexts|
    ensures Adds(s, s.SendTextDone(g), g, [], [])
  {
    if s.contexts[g].textDone {
      AddsNothing(s, s, g);
    } else {
      SendLogs(s, TextDone(g, s.contexts[g].text));
      AddsEvent(s, s.SendTextDone(g), g, TextDone(g, s.contexts[g].text));
    }
  }

  lemma AudioDoneAdds(s: Server, g: nat)
    requires g < |s.contexts|
    ensures Adds(s, s.SendAudioDone(g), g, [], [])
  {
    if s.contexts[g].audioDone {
      AddsNothing(s, s, g);
    } else {
      SendLogs(s, AudioDone(g));
      AddsEvent(s, s.SendAudioDone(g), g, AudioDone(g));
    }
  }

  lemma FinalizeAdds(s: Server, g: nat, ending: Ending)
    requires g < |s.contexts|
    ensures Adds(s, s.Finalize(g, ending), g, EndingOf(s, g, ending), [])
  {
    if s.contexts[g].finalized {
      AddsNothing(s, s, g);
    } else {
      SendLogs(s, Done(g, ending));
      AddsEvent(s, s.Finalize(g, ending), g, Done(g, ending));
    }
  }

  lemma EndSpeechAdds(s: Server, g: nat, ending: Ending)
    requires g < |s.contexts|
    ensures Adds(s, s.EndSpeech(g, ending), g, EndingOf(s, g, ending), [])
  {
    var a := s.SendTextDone(g);
    var b := a.SendAudioDone(g);
    TextDoneAdds(s, g);
    SendTextDoneSilent(s, g);
    AudioDoneAdds(a, g);
    SendAudioDoneSilent(a, g);
    AddsTwice(s, a, b, g, [], [], [], []);
    FinalizeAdds(b, g, ending);
    AddsTwice(s, b, s.EndSpeech(g, ending), g, [], EndingOf(s, g, ending), [], []);
    assert [] + EndingOf(s, g, ending) == EndingOf(s, g, ending);
  }

  lemma LeaveAdds(s: Server, g: nat)
    requires g < |s.contexts|
    ensures Adds(s, s.Leave(g), g, [], [])
  {
    AddsNothing(s, s.Leave(g), g);
  }

  lemma EndEarlyAdds(s: Server, g: nat, ending: Ending)
    requires g < |s.contexts|
    ensures Adds(s, s.EndEarly(g, ending), g, EndingOf(s, g, ending), [])
  {
    var both := s.contexts[g].call.None? || s.contexts[g].speaking;
    var ended := if both then s.EndSpeech(g, ending) else s.Finalize(g, ending);
    EndSpeechAdds(s, g, ending);
    FinalizeAdds(s, g, ending);
    LeaveAdds(ended, g);
    AddsTwice(s, ended, s.EndEarly(g, ending), g, EndingOf(s, g, ending), [], [], []);
    assert EndingOf(s, g, ending) + [] == EndingOf(s, g, ending);
  }

  /** The same with an error notice in front. */
  lemma NoticeEndEarlyAdds(s: Server, g: nat, ending: Ending)
    requires g < |s.contexts|
    ensures Adds(s, s.Send(Notice).EndEarly(g, ending), g, EndingOf(s, g, ending), [])
  {
    NoticeAdds(s, g);
    EndEarlyAdds(s.Send(Notice), g, ending);
    AddsTwice(s, s.Send(Notice), s.Send(Notice).EndEarly(g, ending), g, [], EndingOf(s, g, ending), [], []);
    assert [] + EndingOf(s, g, ending) == EndingOf(s, g, ending);
  }

  lemma EmitCallAdds(s: Server, g: nat)
    requires g < |s.contexts| && s.contexts[g].call.Some? && !s.contexts[g].finalized
    ensures Adds(s, s.EmitCall(g).Leave(g), g, [ToolCalled], [s.contexts[g].call.value])
    ensures s.EmitCall(g).Leave(g).contexts[g].finalized
  {
    var e := CallDone(g, s.contexts[g].call.value);
    var called := s.(pending := Some(s.Issued(g))).Send(e);
    SendLogs(s.(pending := Some(s.Issued(g))), e);
    AddsEvent(s, called, g, e);
    FinalizeAdds(called, g, ToolCalled);
    AddsTwice(s, called, s.EmitCall(g), g, [], [ToolCalled], [s.contexts[g].call.value], []);
    LeaveAdds(s.EmitCall(g), g);
    AddsTwice(s, s.EmitCall(g), s.EmitCall(g).Leave(g), g, [] + [ToolCalled], [],
              [s.contexts[g].call.value] + [], []);
    assert [] + [ToolCalled] + [] == [ToolCalled];
    assert [s.contexts[g].call.value] + [] + [] == [s.contexts[g].call.value];
  }

  // ---- Runners in force ----

  /** A runner that goes on by itself has a token in force: its staleness checks never fire. */
  lemma ChecksNeverFire(s: Server, step: Step)
    requires Inv(s) && Enabled(s, step)
    requires step.Begin? || step.Text? || step.ToolCall? || step.End? || step.Fail? || step.SpeechDone?
    ensures s.Current(step.g) && !s.contexts[step.g].finalized && step.g !in s.everCancelled
  {
    assert ContextOk(s, step.g);
    assert step.g in s.everCancelled ==> CancelledIsSilent(s, step.g);
  }

  /** A runner fails: it cleans up when it was speaking, and ends at once otherwise. */
  lemma FailureTells(s: Server, failed: set<nat>, g: nat)
    requires Tells(s, failed) && g < |s.contexts| && !s.contexts[g].finalized && g !in s.everCancelled
    ensures Tells(s.EnterFailed(g), failed + {g})
  {
    assert EndsOk(s, failed, g);
    if s.contexts[g].speaking {
      AddsNothing(s, s.EnterFailed(g), g);
      AddsKeeps(s, s.EnterFailed(g), g, failed, failed + {g}, [], []);
    } else {
      NoticeEndEarlyAdds(s, g, Ending.Failed);
      NoticeEndEarlyOver(s, g, Ending.Failed);
      AddsKeeps(s, s.EnterFailed(g), g, failed, failed + {g}, [Ending.Failed], []);
    }
  }

  lemma EmitCallTells(s: Server, failed: set<nat>, g: nat)
    requires Tells(s, failed) && g < |s.contexts| && !s.contexts[g].finalized && g !in s.everCancelled
    requires s.contexts[g].call.Some?
    ensures Tells(s.EmitCall(g).Leave(g), failed)
  {
    assert EndsOk(s, failed, g);
    EmitCallAdds(s, g);
    AddsKeeps(s, s.EmitCall(g).Leave(g), g, failed, failed, [ToolCalled], [s.contexts[g].call.value]);
  }

  /** The context changes without ending, and at most one event of it is sent. */
  lemma GoesOn(s: Server, s': Server, failed: set<nat>, g: nat, e: Event)
    requires Tells(s, failed) && g < |s.contexts| == |s'.contexts| && s'.everCancelled == s.everCancelled
    requires s'.contexts == s.contexts[g := s'.contexts[g]] && (e.Notice? || e.generation == g)
    requires !e.Done? && !e.CallDone?
    requires s'.outbound.Log() == s.outbound.Log() || s'.outbound.Log() == s.outbound.Log() + [e]
    requires s'.contexts[g].finalized == s.contexts[g].finalized
    requires !s.contexts[g].finalized ==>
               (s'.contexts[g].phase.FailCleanup? <==> s.contexts[g].phase.FailCleanup?) || g in s.everCancelled
    requires s'.contexts[g].phase.FailCleanup? ==> s.contexts[g].phase.FailCleanup?
    ensures Tells(s', failed)
  {
    assert EndsOk(s, failed, g);
    if s'.outbound.Log() == s.outbound.Log() {
      AddsNothing(s, s', g);
    } else {
      AddsEvent(s, s', g, e);
    }
    AddsKeeps(s, s', g, failed, failed, [], []);
  }

  lemma BeginTells(s: Server, failed: set<nat>, g: nat, fits: bool)
    requires Inv(s) && Tells(s, failed) && Enabled(s, Begin(g, fits))
    ensures Tells(s.RunnerBegins(g, fits), failed)
  {
    ChecksNeverFire(s, Begin(g, fits));
    var c := s.contexts[g];
    assert ContextOk(s, g);
    match c.kind
    case ModelReply => GoesOn(s, s.RunnerBegins(g, fits), failed, g, Notice);
    case DirectSpeak =>
      var a := s.With(g, c.(text := c.speech)).Send(TextDelta(g, c.speech));
      SendLogs(s.With(g, c.(text := c.speech)), TextDelta(g, c.speech));
      GoesOn(s, a, failed, g, TextDelta(g, c.speech));
      SendLogs(a, TextDone(g, c.speech));
      GoesOn(a, s.RunnerBegins(g, fits), failed, g, TextDone(g, c.speech));
    case DeferredCall => EmitCallTells(s, failed, g);
  }

  lemma TextTells(s: Server, failed: set<nat>, g: nat, delta: string)
    requires Inv(s) && Tells(s, failed) && Enabled(s, Text(g, delta))
    ensures Tells(s.ModelText(g, delta), failed)
  {
    ChecksNeverFire(s, Text(g, delta));
    SendLogs(s.With(g, s.contexts[g].(speaking := true, text := s.contexts[g].text + delta)), TextDelta(g, delta));
    GoesOn(s, s.ModelText(g, delta), failed, g, TextDelta(g, delta));
  }

  lemma ToolCallTells(r: Record, s: Server, failed: set<nat>, g: nat, call: Call)
    requires Inv(s) && Follows(r, s) && Tells(s, failed) && Enabled(s, ToolCall(g, call))
    ensures Tells(s.ModelCall(g, call), NoteFailure(r, failed, s, ToolCall(g, call)))
  {
    ChecksNeverFire(s, ToolCall(g, call));
    assert ContextFollows(r, s, g);
    if s.contexts[g].call.Some? {
      FailureTells(s, failed, g);
    } else {
      GoesOn(s, s.ModelCall(g, call), failed, g, Notice);
    }
  }

  lemma EndTells(r: Record, s: Server, failed: set<nat>, g: nat)
    requires Inv(s) && Follows(r, s) && Tells(s, failed) && Enabled(s, End(g))
    ensures Tells(s.ModelEnds(g), NoteFailure(r, failed, s, End(g)))
  {
    ChecksNeverFire(s, End(g));
    assert ContextFollows(r, s, g) && ContextOk(s, g);
    var c := s.contexts[g];
    if c.call.Some? && c.text == "" {
      EmitCallTells(s, failed, g);
    } else if !c.speaking {
      FailureTells(s, failed, g);
    } else {
      SendLogs(s, TextDone(g, c.text));
      GoesOn(s, s.ModelEnds(g), failed, g, TextDone(g, c.text));
    }
  }

  /** Closing the audio and ending the response. */
  lemma CompleteTells(s: Server, failed: set<nat>, g: nat)
    requires Tells(s, failed) && g < |s.contexts| && !s.contexts[g].finalized && g !in s.everCancelled
    requires s.contexts[g].phase.AwaitTts?
    ensures Tells(s.SendAudioDone(g).Finalize(g, Completed), failed)
    ensures s.SendAudioDone(g).Finalize(g, Completed).contexts[g]
            == s.contexts[g].(audioDone := true, finalized := true)
  {
    assert EndsOk(s, failed, g);
    var a := s.SendAudioDone(g);
    SendAudioDoneSilent(s, g);
    FinalizeSilent(a, g, Completed);
    AudioDoneAdds(s, g);
    FinalizeAdds(a, g, Completed);
    AddsTwice(s, a, a.Finalize(g, Completed), g, [], [Completed], [], []);
    AddsKeeps(s, a.Finalize(g, Completed), g, failed, failed, [] + [Completed], []);
  }

  lemma SpeechDoneTells(s: Server, failed: set<nat>, g: nat, kept: bool)
    requires Inv(s) && Tells(s, failed) && Enabled(s, SpeechDone(g, kept))
    ensures Tells(s.TtsFinishes(g, kept), failed)
  {
    ChecksNeverFire(s, SpeechDone(g, kept));
    assert ContextOk(s, g);
    CompleteTells(s, failed, g);
    var b := s.SendAudioDone(g).Finalize(g, Completed);
    assert EndsOk(b, failed, g);
    AddsNothing(b, s.TtsFinishes(g, kept), g);
    AddsKeeps(b, s.TtsFinishes(g, kept), g, failed, failed, [], []);
  }

  lemma EarlyTells(s: Server, s': Server, failed: set<nat>, g: nat, ending: Ending)
    requires Tells(s, failed) && g < |s.contexts|
    requires Adds(s, s', g, EndingOf(s, g, ending), []) && s'.contexts[g].finalized
    requires !s.contexts[g].finalized ==>
               ending == if g in s.everCancelled then CutOff else if g in failed then Ending.Failed else Completed
    ensures Tells(s', failed)
  {
    assert EndsOk(s, failed, g);
    AddsKeeps(s, s', g, failed, failed, EndingOf(s, g, ending), []);
  }

  lemma CleanedUpTells(s: Server, failed: set<nat>, g: nat)
    requires Inv(s) && Tells(s, failed) && Enabled(s, CleanedUp(g))
    ensures Tells(s.CleanupEnds(g), failed)
  {
    assert ContextOk(s, g) && EndsOk(s, failed, g);
    assert g in s.everCancelled ==> CancelledIsSilent(s, g);
    if s.contexts[g].phase.FailCleanup? {
      NoticeEndEarlyAdds(s, g, Ending.Failed);
      NoticeEndEarlyOver(s, g, Ending.Failed);
      EarlyTells(s, s.CleanupEnds(g), failed, g, Ending.Failed);
    } else {
      EndEarlyAdds(s, g, CutOff);
      EndEarlyOver(s, g, CutOff);
      EarlyTells(s, s.CleanupEnds(g), failed, g, CutOff);
    }
  }

  lemma CancelledTells(s: Server, failed: set<nat>, g: nat)
    requires Inv(s) && Tells(s, failed) && Enabled(s, Cancelled(g))
    ensures Tells(s.CancelDelivered(g), failed)
  {
    assert ContextOk(s, g) && EndsOk(s, failed, g);
    var a := s.With(g, s.contexts[g].(cancelRequested := false));
    GoesOn(s, a, failed, g, Notice);
    if (s.contexts[g].phase.Streaming? || s.contexts[g].phase.AwaitTts?) && !s.contexts[g].speaking {
      assert EndsOk(a, failed, g);
      EndEarlyAdds(a, g, CutOff);
      EndEarlyOver(a, g, CutOff);
      AddsKeeps(a, s.CancelDelivered(g), g, failed, failed, EndingOf(a, g, CutOff), []);
    } else {
      GoesOn(a, s.CancelDelivered(g), failed, g, Notice);
    }
  }

  lemma CancelTells(s: Server, failed: set<nat>, generation: Option<nat>, responseId: Option<nat>)
    requires Inv(s) && Tells(s, failed)
    ensures Tells(s.CancelRequested(generation, responseId), failed)
  {
    var s' := s.CancelRequested(generation, responseId);
    if s.CancelHits(generation, responseId) {
      var o := s.outbound;
      forall h: nat
        ensures h < |s.contexts| ==> EndsOk(s', failed, h)
        ensures h >= |s.contexts| ==> SameEnds(s'.outbound.Log(), [], h)
      {
        EndsPurge(o.wire, o.queue, s.response.value, h);
        if h < |s.contexts| {
          assert EndsOk(s, failed, h);
        } else {
          assert SameEnds(o.Log(), [], h);
        }
      }
    }
  }

  lemma CancelEndsTells(s: Server, failed: set<nat>, g: nat)
    requires Inv(s) && Tells(s, failed) && Enabled(s, CancelEnds(g))
    ensures Tells(s.CancelResumes(g), failed)
  {
    assert EndsOk(s, failed, g);
    var resumed := s.(cancelling := s.cancelling - {g});
    AddsNothing(s, resumed, g);
    AddsKeeps(s, resumed, g, failed, failed, [], []);
    if !s.contexts[g].finalized {
      assert EndsOk(resumed, failed, g);
      EndSpeechAdds(resumed, g, CutOff);
      EndSpeechSilent(resumed, g, CutOff);
      AddsKeeps(resumed, resumed.EndSpeech(g, CutOff), g, failed, failed, [CutOff], []);
    }
  }

  lemma StartTells(s: Server, failed: set<nat>, kind: Kind, speech: string, call: Option<Call>)
    requires Inv(s) && Tells(s, failed) && Enabled(s, Start(kind, speech, call))
    ensures Tells(s.StartResponse(kind, speech, call), failed)
  {
    var s', g := s.StartResponse(kind, speech, call), |s.contexts|;
    if |s'.contexts| > g {
      assert g in s.everCancelled ==> CancelledIsSilent(s, g);
      SendLogs(s, Created(g));
      forall h: nat
        ensures h < |s'.contexts| ==> EndsOk(s', failed, h)
        ensures h >= |s'.contexts| ==> SameEnds(s'.outbound.Log(), [], h)
      {
        EndsSnoc(s.outbound.Log(), Created(g), h);
        if h < g {
          assert EndsOk(s, failed, h);
        } else {
          assert SameEnds(s.outbound.Log(), [], h);
        }
      }
    }
  }

  lemma FrameTells(s: Server, failed: set<nat>, g: nat, frame: seq<byte>)
    requires Inv(s) && Tells(s, failed) && Enabled(s, Frame(g, frame))
    ensures Tells(s.AudioFrame(g, frame), failed)
  {
    if s.Current(g) {
      var e := AudioDelta(g, s.contexts[g].audioSequence, frame);
      assert g in s.everCancelled ==> CancelledIsSilent(s, g);
      assert s.outbound.Send(e).Log() == s.outbound.Log() + [e];
      GoesOn(s, s.AudioFrame(g, frame), failed, g, e);
    }
  }

  /** Contexts stay as they are, and at most a notice is sent. */
  lemma AsideTells(s: Server, s': Server, failed: set<nat>)
    requires Tells(s, failed) && s'.contexts == s.contexts && s'.everCancelled == s.everCancelled
    requires s'.outbound == s.outbound.Send(Notice) || s'.outbound.Log() == s.outbound.Log()
    ensures Tells(s', failed)
  {
    SendLogs(s, Notice);
    forall h: nat
      ensures h < |s.contexts| ==> EndsOk(s', failed, h)
      ensures h >= |s.contexts| ==> SameEnds(s'.outbound.Log(), [], h)
    {
      EndsSnoc(s.outbound.Log(), Notice, h);
      if h < |s.contexts| {
        assert EndsOk(s, failed, h);
      } else {
        assert SameEnds(s.outbound.Log(), [], h);
      }
    }
  }

  lemma BargeInTells(s: Server, failed: set<nat>, interrupt: bool)
    requires Inv(s) && Tells(s, failed) && Enabled(s, BargeIn(interrupt))
    ensures Tells(s.SpeechStarts(interrupt), failed)
  {
    var turned := s.(revision := s.revision + 1, turnId := Some(s.turns), turns := s.turns + 1, pending := None);
    SettingsChange(s, turned);
    AsideTells(s, turned, failed);
    if interrupt && s.CancelHits(None, None) {
      CancelTells(turned, failed, None, None);
    } else {
      AsideTells(turned, turned.Send(Notice), failed);
    }
  }

  lemma TakeTells(s: Server, failed: set<nat>)
    requires Inv(s) && Tells(s, failed) && Enabled(s, Take)
    ensures Tells(Apply(s, Take), failed)
  {
    var e := s.outbound.queue[0];
    assert e in s.outbound.queue && (e.AudioDelta? ==> AudioOf(e, e.generation));
    assert e.AudioDelta? && e.generation in s.everCancelled ==> CancelledIsSilent(s, e.generation);
    assert Apply(s, Take).outbound.Log() == s.outbound.Log();
    AsideTells(s, Apply(s, Take), failed);
  }

  lemma StepTells(r: Record, s: Server, failed: set<nat>, step: Step)
    requires Inv(s) && Follows(r, s) && Tells(s, failed) && Enabled(s, step)
    ensures Tells(Apply(s, step), NoteFailure(r, failed, s, step))
  {
    match step
    case Start(kind, speech, call) => StartTells(s, failed, kind, speech, call);
    case Begin(g, fits) => BeginTells(s, failed, g, fits);
    case Text(g, delta) => TextTells(s, failed, g, delta);
    case ToolCall(g, call) => ToolCallTells(r, s, failed, g, call);
    case End(g) => EndTells(r, s, failed, g);
    case Fail(g) =>
      ChecksNeverFire(s, step);
      FailureTells(s, failed, g);
    case SpeechDone(g, kept) => SpeechDoneTells(s, failed, g, kept);
    case CleanedUp(g) => CleanedUpTells(s, failed, g);
    case Cancelled(g) => CancelledTells(s, failed, g);
    case Cancel(generation, responseId) => CancelTells(s, failed, generation, responseId);
    case CancelEnds(g) => CancelEndsTells(s, failed, g);
    case Frame(g, frame) => FrameTells(s, failed, g, frame);
    case BargeIn(interrupt) => BargeInTells(s, failed, interrupt);
    case Take => TakeTells(s, failed);
    case _ => AsideTells(s, Apply(s, step), failed);
  }

  // ---- What is sent when a response ends early ----

  /** The events that close a response: its open streams, if it has any, and the done event. */
  function Closing(c: Context, g: nat, streams: bool, ending: Ending): seq<Event> {
    (if streams && !c.textDone then [TextDone(g, c.text)] else [])
    + (if streams && !c.audioDone then [AudioDone(g)] else [])
    + (if !c.finalized then [Done(g, ending)] else [])
  }

  /** It could speak: it has no tool call, or it has spoken. */
  predicate HasStreams(c: Context) {
    c.call.None? || c.speaking
  }

  predicate Sends(s: Server, s': Server, events: seq<Event>) {
    s'.outbound.queue == s.outbound.queue + events
  }

  lemma SendsTwice(a: Server, b: Server, c: Server, x: seq<Event>, y: seq<Event>)
    requires Sends(a, b, x) && Sends(b, c, y)
    ensures Sends(a, c, x + y)
  {
  }

  lemma PartsAreSent(s: Server, g: nat, ending: Ending)
    requires g < |s.contexts|
    ensures var c := s.contexts[g];
            && Sends(s, s.SendTextDone(g), if !c.textDone then [TextDone(g, c.text)] else [])
            && Sends(s, s.SendAudioDone(g), if !c.audioDone then [AudioDone(g)] else [])
            && Sends(s, s.Finalize(g, ending), if !c.finalized then [Done(g, ending)] else [])
  {
  }

  lemma EndSpeechSends(s: Server, g: nat, ending: Ending)
    requires g < |s.contexts|
    ensures Sends(s, s.EndSpeech(g, ending), Closing(s.contexts[g], g, true, ending))
  {
    var a := s.SendTextDone(g);
    var b := a.SendAudioDone(g);
    var c := s.contexts[g];
    SendTextDoneSilent(s, g);
    SendAudioDoneSilent(a, g);
    PartsAreSent(s, g, ending);
    PartsAreSent(a, g, ending);
    PartsAreSent(b, g, ending);
    var text, audio := if !c.textDone then [TextDone(g, c.text)] else [], if !c.audioDone then [AudioDone(g)] else [];
    SendsTwice(s, a, b, text, audio);
    SendsTwice(s, b, s.EndSpeech(g, ending), text + audio, if !c.finalized then [Done(g, ending)] else []);
  }

  lemma EndEarlySends(s: Server, g: nat, ending: Ending)
    requires g < |s.contexts|
    ensures Sends(s, s.EndEarly(g, ending), Closing(s.contexts[g], g, HasStreams(s.contexts[g]), ending))
  {
    EndSpeechSends(s, g, ending);
    PartsAreSent(s, g, ending);
    LeaveSends(if HasStreams(s.contexts[g]) then s.EndSpeech(g, ending) else s.Finalize(g, ending), g);
    assert Closing(s.contexts[g], g, false, ending) == if !s.contexts[g].finalized then [Done(g, ending)] else [];
  }

  lemma LeaveSends(s: Server, g: nat)
    requires g < |s.contexts|
    ensures s.Leave(g).outbound == s.outbound
  {
  }

  function Reported(c: Context, g: nat): seq<Event> {
    [Notice] + Closing(c, g, HasStreams(c), Ending.Failed)
  }

  lemma ReportSends(s: Server, g: nat)
    requires g < |s.contexts|
    ensures Sends(s, s.Send(Notice).EndEarly(g, Ending.Failed), Reported(s.contexts[g], g))
  {
    EndEarlySends(s.Send(Notice), g, Ending.Failed);
    SendsTwice(s, s.Send(Notice), s.Send(Notice).EndEarly(g, Ending.Failed), [Notice],
               Closing(s.contexts[g], g, HasStreams(s.contexts[g]), Ending.Failed));
  }

  /** A runner that fails while it speaks stops its speech first; otherwise it reports and closes the response. */
  lemma FailureIsReported(r: Record, s: Server, step: Step)
    requires Inv(s) && Follows(r, s) && Enabled(s, step) && Fails(r, s, step)
    ensures var c, s' := s.contexts[step.g], Apply(s, step);
            if c.speaking then Sends(s, s', []) && s'.contexts[step.g].phase.FailCleanup?
            else Sends(s, s', Reported(c, step.g)) && s'.contexts[step.g].phase.Exited?
  {
    ChecksNeverFire(s, step);
    assert ContextOk(s, step.g) && ContextFollows(r, s, step.g);
    assert Apply(s, step) == s.EnterFailed(step.g);
    ReportSends(s, step.g);
    NoticeEndEarlyOver(s, step.g, Ending.Failed);
  }

  /** Once the speech is gone a failed response is reported and closed, and a cancelled one closed without a report. */
  lemma CleanupIsSent(s: Server, g: nat)
    requires Enabled(s, CleanedUp(g))
    ensures var c, s' := s.contexts[g], s.CleanupEnds(g);
            && Sends(s, s', if c.phase.FailCleanup? then Reported(c, g) else Closing(c, g, HasStreams(c), CutOff))
            && s'.contexts[g].phase.Exited?
  {
    if s.contexts[g].phase.FailCleanup? {
      ReportSends(s, g);
      NoticeEndEarlyOver(s, g, Ending.Failed);
    } else {
      EndEarlySends(s, g, CutOff);
      EndEarlyOver(s, g, CutOff);
    }
  }

  /** A cancellation reaches a runner: one that speaks stops its speech first, one that streams closes the response. */
  lemma CancellationIsSent(s: Server, g: nat)
    requires Enabled(s, Cancelled(g)) && g < |s.contexts|
    requires s.contexts[g].phase.Streaming? || s.contexts[g].phase.AwaitTts?
    ensures var c, s' := s.contexts[g], s.CancelDelivered(g);
            if c.speaking then Sends(s, s', []) && s'.contexts[g].phase.CancelCleanup?
            else Sends(s, s', Closing(c, g, HasStreams(c), CutOff)) && s'.contexts[g].phase.Exited?
  {
    EnterCancelledSends(s.With(g, s.contexts[g].(cancelRequested := false)), g);
  }

  /** One that has not begun, or is already cleaning up, just ends. */
  lemma LateCancellationIsSilent(s: Server, g: nat)
    requires Enabled(s, Cancelled(g)) && g < |s.contexts|
    requires !s.contexts[g].phase.Streaming? && !s.contexts[g].phase.AwaitTts?
    ensures s.CancelDelivered(g).outbound == s.outbound && s.CancelDelivered(g).contexts[g].phase.Exited?
  {
  }

  lemma EnterCancelledSends(s: Server, g: nat)
    requires g < |s.contexts|
    ensures var c, s' := s.contexts[g], s.EnterCancelled(g);
            if c.speaking then Sends(s, s', []) && s'.contexts[g].phase.CancelCleanup?
            else Sends(s, s', Closing(c, g, HasStreams(c), CutOff)) && s'.contexts[g].phase.Exited?
  {
    if !s.contexts[g].speaking {
      EndEarlySends(s, g, CutOff);
      EndEarlyOver(s, g, CutOff);
    }
  }

  lemma CompleteSends(s: Server, g: nat)
    requires g < |s.contexts| && !s.contexts[g].audioDone && !s.contexts[g].finalized
    ensures Sends(s, s.SendAudioDone(g).Finalize(g, Completed), [AudioDone(g), Done(g, Completed)])
  {
    var a := s.SendAudioDone(g);
    SendAudioDoneSilent(s, g);
    PartsAreSent(s, g, Completed);
    PartsAreSent(a, g, Completed);
    SendsTwice(s, a, a.Finalize(g, Completed), [AudioDone(g)], [Done(g, Completed)]);
  }

  /** Spoken text ends its response; when the conversation refuses it, a failure is still to be reported. */
  lemma SpeechDoneIsSent(s: Server, g: nat, kept: bool)
    requires Inv(s) && Enabled(s, SpeechDone(g, kept))
    ensures var s' := s.TtsFinishes(g, kept);
            && Sends(s, s', [AudioDone(g), Done(g, Completed)])
            && (if kept then s'.contexts[g].phase.Exited? && s'.response.None?
                else s'.contexts[g].phase.FailCleanup? && s'.response == Some(g))
  {
    ChecksNeverFire(s, SpeechDone(g, kept));
    assert ContextOk(s, g);
    SendAudioDoneSilent(s, g);
    FinalizeSilent(s.SendAudioDone(g), g, Completed);
    CompleteSends(s, g);
    LeaveSends(s.SendAudioDone(g).Finalize(g, Completed), g);
  }

  /** The tail of a cancellation closes what its runner has left open. */
  lemma CancelTailIsSent(s: Server, g: nat)
    requires Enabled(s, CancelEnds(g)) && g < |s.contexts|
    ensures var c := s.contexts[g];
            Sends(s, s.CancelResumes(g), if c.finalized then [] else Closing(c, g, true, CutOff))
  {
    EndSpeechSends(s.(cancelling := s.cancelling - {g}), g, CutOff);
  }

  // ---- Main result ----

  /** The runners that failed in a run. */
  function Failures(r: Record, failed: set<nat>, s: Server, steps: seq<Step>): set<nat>
    requires r.Aligned(|s.contexts|) && Possible(s, steps)
    decreases |steps|
  {
    if steps == [] then failed
    else
      var noted, next := Note(r, s, steps[0]), Apply(s, steps[0]);
      var more := NoteFailure(r, failed, s, steps[0]);
      if noted.Aligned(|next.contexts|) then Failures(noted, more, next, steps[1..]) else more
  }

  lemma {:induction false} AlwaysTells(r: Record, s: Server, failed: set<nat>, steps: seq<Step>)
    requires Inv(s) && Follows(r, s) && Tells(s, failed) && Possible(s, steps)
    ensures Tells(Execute(s, steps), Failures(r, failed, s, steps))
    decreases |steps|
  {
    if steps == [] {
    } else {
      StepTells(r, s, failed, steps[0]);
      StepFollows(r, s, steps[0]);
      StepKeepsInv(s, steps[0]);
      AlwaysTells(Note(r, s, steps[0]), Apply(s, steps[0]), NoteFailure(r, failed, s, steps[0]), steps[1..]);
    }
  }

  /** Every response ends at most once, with the status that the cancellations, calls and failures of the run make. */
  lemma RunTellsOutcome(steps: seq<Step>, g: nat)
    requires Possible(INITIAL, steps) && g < |Execute(INITIAL, steps).contexts|
    ensures var s, failed := Execute(INITIAL, steps), Failures(BLANK, {}, INITIAL, steps);
            var ending := if g in s.everCancelled then CutOff
                          else if CallsOf(s.outbound.Log(), g) != [] then ToolCalled
                          else if g in failed then Ending.Failed
                          else Completed;
            Endings(s.outbound.Log(), g) == if s.contexts[g].finalized then [ending] else []
  {
    BlankFollows();
    assert INITIAL.outbound.Log() == [];
    AlwaysTells(BLANK, INITIAL, {}, steps);
    assert EndsOk(Execute(INITIAL, steps), Failures(BLANK, {}, INITIAL, steps), g);
  }

  // ---- When a cancellation is forgotten ----

  /** The events whose transmission has returned. */
  function Sent(o: T.Outbound): seq<Event> {
    if o.sending.Some? && o.wire != [] then o.wire[..|o.wire| - 1] else o.wire
  }

  /** The transport marks a cancelled generation until its done event was transmitted. */
  ghost predicate Marked(s: Server) {
    var o := s.outbound;
    && (o.sending.Some? ==> o.wire != [] && o.wire[|o.wire| - 1] == o.sending.value)
    && forall g: nat :: MarkOk(s, g)
  }

  predicate MarkOk(s: Server, g: nat) {
    g in s.outbound.cancelled <==> g in s.everCancelled && Endings(Sent(s.outbound), g) == []
  }

  lemma {:induction false} EndingsPrefix(a: seq<Event>, b: seq<Event>, g: nat)
    ensures Endings(a + b, g) == [] ==> Endings(a, g) == []
    decreases |b|
  {
    if b == [] {
      assert a + b == a;
    } else {
      var front := b[..|b| - 1];
      assert (a + b)[..|a + b| - 1] == a + front;
      EndingsPrefix(a, front, g);
    }
  }

  lemma CancelMarks(s: Server, failed: set<nat>, generation: Option<nat>, responseId: Option<nat>)
    requires Inv(s) && Tells(s, failed) && Marked(s)
    ensures Marked(s.CancelRequested(generation, responseId))
  {
    var s' := s.CancelRequested(generation, responseId);
    if s.CancelHits(generation, responseId) {
      var g, o := s.response.value, s.outbound;
      assert EndsOk(s, failed, g);
      assert o.Log() == Sent(o) + o.Log()[|Sent(o)|..];
      EndingsPrefix(Sent(o), o.Log()[|Sent(o)|..], g);
      forall h: nat
        ensures MarkOk(s', h)
      {
        assert MarkOk(s, h);
      }
    }
  }

  lemma TransmittedMarks(s: Server)
    requires Marked(s) && s.outbound.sending.Some?
    ensures Marked(s.(outbound := s.outbound.Complete()))
  {
    var s', e := s.(outbound := s.outbound.Complete()), s.outbound.sending.value;
    assert Sent(s'.outbound) == Sent(s.outbound) + [e];
    forall h: nat
      ensures MarkOk(s', h)
    {
      assert MarkOk(s, h);
      EndsSnoc(Sent(s.outbound), e, h);
    }
  }

  lemma TakeMarks(s: Server)
    requires Marked(s) && Enabled(s, Take)
    ensures Marked(Apply(s, Take))
  {
    var s' := Apply(s, Take);
    assert Sent(s'.outbound) == Sent(s.outbound);
    forall h: nat
      ensures MarkOk(s', h)
    {
      assert MarkOk(s, h);
    }
  }

  /** Nothing that marking depends on changed. */
  lemma SameMarks(s: Server, s': Server)
    requires Marked(s) && s.Grew(s')
    ensures Marked(s')
  {
    forall h: nat
      ensures MarkOk(s', h)
    {
      assert MarkOk(s, h);
    }
  }

  lemma BargeInMarks(s: Server, failed: set<nat>, interrupt: bool)
    requires Inv(s) && Tells(s, failed) && Marked(s) && Enabled(s, BargeIn(interrupt))
    ensures Marked(s.SpeechStarts(interrupt))
  {
    var turned := s.(revision := s.revision + 1, turnId := Some(s.turns), turns := s.turns + 1, pending := None);
    SameMarks(s, turned);
    if interrupt && s.CancelHits(None, None) {
      SettingsChange(s, turned);
      AsideTells(s, turned, failed);
      CancelMarks(turned, failed, None, None);
    } else {
      SameMarks(turned, turned.Send(Notice));
    }
  }

  lemma StepMarks(s: Server, failed: set<nat>, step: Step)
    requires Inv(s) && Tells(s, failed) && Marked(s) && Enabled(s, step)
    ensures Marked(Apply(s, step))
  {
    match step
    case Cancel(generation, responseId) => CancelMarks(s, failed, generation, responseId);
    case BargeIn(interrupt) => BargeInMarks(s, failed, interrupt);
    case Take => TakeMarks(s);
    case Transmitted => TransmittedMarks(s);
    case _ =>
      OthersGrow(s, step);
      SameMarks(s, Apply(s, step));
  }

  lemma ResponsesGrow(s: Server, step: Step)
    requires Enabled(s, step) && OfResponse(step)
    ensures s.Grew(Apply(s, step))
  {
  }

  lemma OthersGrow(s: Server, step: Step)
    requires Enabled(s, step) && !step.Cancel? && !step.BargeIn? && !step.Take? && !step.Transmitted?
    ensures s.Grew(Apply(s, step))
  {
    if OfResponse(step) {
      ResponsesGrow(s, step);
    }
  }

  lemma {:induction false} AlwaysMarked(r: Record, s: Server, failed: set<nat>, steps: seq<Step>)
    requires Inv(s) && Follows(r, s) && Tells(s, failed) && Marked(s) && Possible(s, steps)
    ensures Marked(Execute(s, steps))
    decreases |steps|
  {
    if steps == [] {
    } else {
      StepMarks(s, failed, steps[0]);
      StepTells(r, s, failed, steps[0]);
      StepFollows(r, s, steps[0]);
      StepKeepsInv(s, steps[0]);
      AlwaysMarked(Note(r, s, steps[0]), Apply(s, steps[0]), NoteFailure(r, failed, s, steps[0]), steps[1..]);
    }
  }

  /** In every run the transport remembers exactly the cancelled generations whose done event is not transmitted yet. */
  lemma RemembersUntilDone(steps: seq<Step>, g: nat)
    requires Possible(INITIAL, steps)
    ensures var s := Execute(INITIAL, steps);
            g in s.outbound.cancelled <==> g in s.everCancelled && Endings(Sent(s.outbound), g) == []
  {
    BlankFollows();
    assert INITIAL.outbound.Log() == [];
    AlwaysMarked(BLANK, INITIAL, {}, steps);
    assert MarkOk(Execute(INITIAL, steps), g);
  }

  // ---- Settings ----

  /** The tools that the last `Configure` of a run names. */
  function LastTools(tools: set<nat>, steps: seq<Step>): set<nat>
    decreases |steps|
  {
    if steps == [] then tools
    else LastTools(if steps[0].Configure? then steps[0].tools else tools, steps[1..])
  }

  predicate Closed(steps: seq<Step>) {
    exists i :: 0 <= i < |steps| && steps[i].CloseReplay?
  }

  lemma StepKeepsSettings(s: Server, step: Step)
    requires Enabled(s, step)
    ensures var s' := Apply(s, step);
            && s'.tools == (if step.Configure? then step.tools else s.tools)
            && s'.replayOpen == (s.replayOpen && !step.CloseReplay?)
  {
    if OfResponse(step) {
      ResponsesKeepTurn(s, step);
    }
  }

  lemma {:induction false} RunKeepsSettings(s: Server, steps: seq<Step>)
    requires Possible(s, steps)
    ensures Execute(s, steps).tools == LastTools(s.tools, steps)
    ensures Execute(s, steps).replayOpen <==> s.replayOpen && !Closed(steps)
    decreases |steps|
  {
    if steps == [] {
    } else {
      StepKeepsSettings(s, steps[0]);
      RunKeepsSettings(Apply(s, steps[0]), steps[1..]);
      assert Closed(steps) <==> steps[0].CloseReplay? || Closed(steps[1..]) by {
        if Closed(steps[1..]) {
          var i :| 0 <= i < |steps[1..]| && steps[1..][i].CloseReplay?;
          assert steps[i + 1].CloseReplay?;
        }
        if Closed(steps) && !steps[0].CloseReplay? {
          var i :| 0 <= i < |steps| && steps[i].CloseReplay?;
          assert steps[1..][i - 1].CloseReplay?;
        }
      }
    }
  }

  /** Some response was started that is no filler. */
  predicate Replied(r: Record) {
    exists g :: 0 <= g < |r.births| && !r.births[g].kind.DirectSpeak?
  }

  lemma StepFreezes(r: Record, s: Server, step: Step)
    requires Follows(r, s) && Enabled(s, step) && (s.toolsFrozen <==> Replied(r))
    ensures Apply(s, step).toolsFrozen <==> Replied(Note(r, s, step))
  {
    if OfResponse(step) {
      ResponsesKeepTurn(s, step);
    }
    if step.Start? {
      var r' := Note(r, s, step);
      assert forall g :: 0 <= g < |r.births| ==> r'.births[g] == r.births[g];
      assert |r'.births| > |r.births| ==> r'.births[|r.births|].kind == step.kind;
    } else {
      OnlyStartsGiveBirth(r, s, step);
    }
  }

  /** The tools are frozen exactly since the first response that is no filler. */
  lemma {:induction false} RunFreezes(r: Record, s: Server, steps: seq<Step>)
    requires Inv(s) && Follows(r, s) && Possible(s, steps) && (s.toolsFrozen <==> Replied(r))
    ensures Execute(s, steps).toolsFrozen <==> Replied(NoteAll(r, s, steps))
    decreases |steps|
  {
    if steps == [] {
    } else {
      StepFreezes(r, s, steps[0]);
      StepFollows(r, s, steps[0]);
      StepKeepsInv(s, steps[0]);
      RunFreezes(Note(r, s, steps[0]), Apply(s, steps[0]), steps[1..]);
    }
  }
}
