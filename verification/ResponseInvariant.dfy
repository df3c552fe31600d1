/**
 What every step of the response protocol keeps, whatever the interleaving.
 */
module ResponseInvariant {
  import opened Options
  import opened Wire
  import opened ResponseProtocol
  import C = Cancellation
  import T = Transport

  /** A token that is still in force belongs to the newest, live, uncancelled response. */
  predicate CurrentIsLive(s: Server) {
    && s.cancellation.Valid()
    && (s.cancellation.current.Some? ==>
          var t := s.cancellation.current.value;
          && s.response == Some(t.generation)
          && t.generation < |s.contexts|
          && var c := s.contexts[t.generation];
             c.token == t && !c.finalized && !c.cancelRequested && !c.phase.Exited? && !c.phase.CancelCleanup?)
  }

  predicate ContextOk(s: Server, g: nat)
    requires g < |s.contexts|
  {
    var c := s.contexts[g];
    && c.token.generation == g
    && c.token.epoch <= s.cancellation.epoch
    && (!c.phase.Exited? ==> s.response == Some(g))
    && (c.cancelRequested ==> !c.phase.Exited? && g in s.everCancelled)
    && (!c.finalized ==> g in s.cancelling || s.Current(g))
    && (g in s.cancelling ==> c.finalized || c.cancelRequested || c.phase.CancelCleanup? || c.phase.Exited?)
    && (c.phase.CancelCleanup? ==> !c.cancelRequested)
    && (c.phase.AwaitTts? || c.phase.FailCleanup? || c.phase.CancelCleanup? ==> c.speaking)
    && (c.kind.DeferredCall? ==> c.call.Some? && !c.speaking && c.text == "")
    && (c.kind.DirectSpeak? ==> c.call.None? && c.speech != "")
    && (c.kind.ModelReply? ==> c.speaking == (c.text != ""))
    && (!c.speaking ==> c.audioSequence == 0)
    && (c.phase.NotStarted? ==> c.text == "" && !c.textDone && !c.audioDone && !c.finalized && !c.speaking)
    && (c.phase.Streaming? && c.kind.ModelReply? ==> !c.textDone && !c.audioDone && !c.finalized)
    && (!c.finalized && c.call.Some? && !c.speaking ==> !c.textDone && !c.audioDone)
    && (c.audioDone ==> c.textDone)
    && (c.finalized ==> c.textDone == c.audioDone)
    && (c.finalized && (c.call.None? || c.speaking) ==> c.textDone)
    && (c.finalized ==> c.phase.Exited? || (c.phase.FailCleanup? && c.textDone && c.audioDone))
    && (c.phase.AwaitTts? ==> c.textDone)
    && (!c.finalized ==> !c.audioDone)
  }

  predicate NoAudioQueued(s: Server, g: nat) {
    forall e :: e in s.outbound.queue ==> !AudioOf(e, g)
  }

  /** A cancelled generation is out of force and has no audio left to send. */
  predicate CancelledIsSilent(s: Server, g: nat) {
    && g < |s.contexts|
    && !s.Current(g)
    && NoAudioQueued(s, g)
  }

  /** While a response that may issue a call is active, no call is pending. */
  predicate CallsAreFree(s: Server) {
    && (s.response.Some? && s.response.value < |s.contexts| ==>
          var c := s.contexts[s.response.value];
          !c.kind.DirectSpeak? && !c.finalized ==> s.pending.None?)
    && ((exists g :: 0 <= g < |s.contexts| && !s.contexts[g].kind.DirectSpeak?) ==> s.toolsFrozen)
  }

  predicate Inv(s: Server) {
    && (s.response.Some? ==> s.response.value == |s.contexts| - 1)
    && CurrentIsLive(s)
    && (forall g: nat :: g < |s.contexts| ==> ContextOk(s, g))
    && (forall g :: g in s.everCancelled ==> CancelledIsSilent(s, g))
    && s.outbound.cancelled <= s.everCancelled
    && (forall g :: g in s.cancelling ==> g in s.everCancelled)
    && (forall e :: e in s.outbound.queue && !e.Notice? ==> e.generation < |s.contexts|)
    && CallsAreFree(s)
  }

  lemma InitialInv()
    ensures Inv(INITIAL)
  {
  }

  // ---- Steps that only work on one response ----

  /** The queue grew by events of one generation, none of them audio. */
  predicate Appended(queue: seq<Event>, queue': seq<Event>, g: nat) {
    && queue <= queue'
    && forall i :: |queue| <= i < |queue'| ==>
         !queue'[i].AudioDelta? && (queue'[i].Notice? || queue'[i].generation == g)
  }

  /** What a runner step or the end of a cancellation leaves alone. */
  predicate Quiet(s: Server, s': Server, g: nat) {
    && |s'.contexts| == |s.contexts| && g < |s.contexts|
    && (forall h: nat :: h < |s.contexts| && h != g ==> s'.contexts[h] == s.contexts[h])
    && s'.contexts[g].kind == s.contexts[g].kind && s'.contexts[g].token == s.contexts[g].token
    && s'.outbound.cancelled == s.outbound.cancelled
    && Appended(s.outbound.queue, s'.outbound.queue, g)
    && s'.everCancelled == s.everCancelled && s'.cancelling == s.cancelling
    && s'.cancellation.epoch == s.cancellation.epoch
    && (s'.cancellation.current == s.cancellation.current || (s.Current(g) && s'.cancellation.current.None?))
    && (s'.response == s.response || (s.response == Some(g) && s'.response.None?))
    && s'.toolsFrozen == s.toolsFrozen
  }

  lemma QuietKeepsRest(s: Server, s': Server, g: nat)
    requires Inv(s) && Quiet(s, s', g)
    requires ContextOk(s', g) && CurrentIsLive(s') && CallsAreFree(s')
    ensures Inv(s')
  {
    forall h: nat | h < |s'.contexts|
      ensures ContextOk(s', h)
    {
      assert ContextOk(s, h);
      if h != g && s.Current(h) {
        assert s.response == Some(h) && s'.response == Some(h);
      }
    }
    forall h | h in s'.everCancelled
      ensures CancelledIsSilent(s', h)
    {
      assert CancelledIsSilent(s, h);
      forall e | e in s'.outbound.queue
        ensures !AudioOf(e, h)
      {
        var i :| 0 <= i < |s'.outbound.queue| && s'.outbound.queue[i] == e;
        if i < |s.outbound.queue| {
          assert s.outbound.queue[i] == e;
        }
      }
    }
    forall e | e in s'.outbound.queue && !e.Notice?
      ensures e.generation < |s'.contexts|
    {
      var i :| 0 <= i < |s'.outbound.queue| && s'.outbound.queue[i] == e;
      if i < |s.outbound.queue| {
        assert s.outbound.queue[i] == e;
      }
    }
  }

  lemma QuietTwice(a: Server, b: Server, c: Server, g: nat)
    requires Quiet(a, b, g) && Quiet(b, c, g)
    ensures Quiet(a, c, g)
  {
    var queue, queue' := a.outbound.queue, c.outbound.queue;
    forall i | |queue| <= i < |queue'|
      ensures !queue'[i].AudioDelta? && (queue'[i].Notice? || queue'[i].generation == g)
    {
      if i < |b.outbound.queue| {
        assert queue'[i] == b.outbound.queue[i];
      }
    }
  }

  /** Quiet, and nothing but the context, the queue and the token changed. */
  predicate Silent(s: Server, s': Server, g: nat) {
    && Quiet(s, s', g)
    && s'.response == s.response && s'.pending == s.pending
  }

  lemma SendTextDoneSilent(s: Server, g: nat)
    requires g < |s.contexts|
    ensures Silent(s, s.SendTextDone(g), g) && s.SendTextDone(g).cancellation == s.cancellation
    ensures s.SendTextDone(g).contexts[g] == s.contexts[g].(textDone := true)
  {
  }

  lemma SendAudioDoneSilent(s: Server, g: nat)
    requires g < |s.contexts|
    ensures Silent(s, s.SendAudioDone(g), g) && s.SendAudioDone(g).cancellation == s.cancellation
    ensures s.SendAudioDone(g).contexts[g] == s.contexts[g].(audioDone := true)
  {
  }

  function Finished(s: Server, g: nat): C.State
    requires g < |s.contexts|
  {
    if s.contexts[g].finalized then s.cancellation else s.cancellation.Finish(s.contexts[g].token)
  }

  lemma FinalizeSilent(s: Server, g: nat, ending: Ending)
    requires g < |s.contexts|
    ensures Silent(s, s.Finalize(g, ending), g) && s.Finalize(g, ending).cancellation == Finished(s, g)
    ensures s.Finalize(g, ending).contexts[g] == s.contexts[g].(finalized := true)
  {
  }

  lemma EndSpeechSilent(s: Server, g: nat, ending: Ending)
    requires g < |s.contexts|
    ensures Silent(s, s.EndSpeech(g, ending), g) && s.EndSpeech(g, ending).cancellation == Finished(s, g)
    ensures s.EndSpeech(g, ending).contexts[g] == s.contexts[g].(textDone := true, audioDone := true, finalized := true)
  {
    var a := s.SendTextDone(g);
    var b := a.SendAudioDone(g);
    SendTextDoneSilent(s, g);
    SendAudioDoneSilent(a, g);
    FinalizeSilent(b, g, ending);
    QuietTwice(s, a, b, g);
    QuietTwice(s, b, s.EndSpeech(g, ending), g);
  }

  lemma LeaveQuiet(s: Server, g: nat)
    requires g < |s.contexts|
    ensures Quiet(s, s.Leave(g), g) && s.Leave(g).pending == s.pending
  {
  }

  /** A context whose streams are closed as far as it needs them to be. */
  function Ended(c: Context): Context {
    var both := c.call.None? || c.speaking;
    c.(textDone := both || c.textDone, audioDone := both || c.audioDone, finalized := true, phase := Exited)
  }

  /** The runner of `g` is over: its context is ended, its token finished, the session idle. */
  predicate Over(s: Server, s': Server, g: nat) {
    && Quiet(s, s', g) && s'.pending == s.pending
    && s'.contexts[g] == Ended(s.contexts[g])
    && s'.cancellation == Finished(s, g)
    && s'.response == if s.response == Some(g) then None else s.response
  }

  lemma LeaveOver(s: Server, ended: Server, g: nat)
    requires Silent(s, ended, g) && ended.cancellation == Finished(s, g)
    requires ended.contexts[g].(phase := Exited) == Ended(s.contexts[g])
    ensures Over(s, ended.Leave(g), g)
  {
    LeaveQuiet(ended, g);
    QuietTwice(s, ended, ended.Leave(g), g);
  }

  lemma EndEarlyOver(s: Server, g: nat, ending: Ending)
    requires g < |s.contexts|
    ensures Over(s, s.EndEarly(g, ending), g)
  {
    EndSpeechSilent(s, g, ending);
    FinalizeSilent(s, g, ending);
    if s.contexts[g].call.None? || s.contexts[g].speaking {
      LeaveOver(s, s.EndSpeech(g, ending), g);
    } else {
      LeaveOver(s, s.Finalize(g, ending), g);
    }
  }

  lemma NoticeEndEarlyOver(s: Server, g: nat, ending: Ending)
    requires g < |s.contexts|
    ensures Over(s, s.Send(Notice).EndEarly(g, ending), g)
  {
    EndEarlyOver(s.Send(Notice), g, ending);
    QuietTwice(s, s.Send(Notice), s.Send(Notice).EndEarly(g, ending), g);
  }

  lemma OverKeeps(s: Server, s': Server, g: nat)
    requires Inv(s) && Over(s, s', g) && !s.contexts[g].cancelRequested
    ensures Inv(s')
  {
    assert ContextOk(s, g);
    QuietKeepsRest(s, s', g);
  }

  lemma EnterCancelledKeeps(s: Server, g: nat)
    requires Inv(s) && g < |s.contexts| && s.response == Some(g) && !s.Current(g) && !s.contexts[g].cancelRequested
    requires !s.contexts[g].finalized
    ensures Inv(s.EnterCancelled(g))
  {
    assert ContextOk(s, g);
    if s.contexts[g].speaking {
      QuietKeepsRest(s, s.EnterCancelled(g), g);
    } else {
      EndEarlyOver(s, g, CutOff);
      OverKeeps(s, s.EnterCancelled(g), g);
    }
  }

  lemma EnterFailedKeeps(s: Server, g: nat)
    requires Inv(s) && g < |s.contexts| && s.response == Some(g)
    requires !s.contexts[g].cancelRequested && !s.contexts[g].phase.NotStarted?
    requires s.contexts[g].phase != Exited && s.contexts[g].phase != CancelCleanup
    ensures Inv(s.EnterFailed(g))
  {
    assert ContextOk(s, g);
    if s.contexts[g].speaking {
      QuietKeepsRest(s, s.EnterFailed(g), g);
    } else {
      NoticeEndEarlyOver(s, g, Ending.Failed);
      OverKeeps(s, s.EnterFailed(g), g);
    }
  }

  /** Issuing a call ends the response that issued it. */
  lemma EmitCallKeeps(s: Server, g: nat)
    requires Inv(s) && g < |s.contexts| && s.contexts[g].call.Some? && s.response == Some(g)
    requires !s.contexts[g].textDone && !s.contexts[g].audioDone && !s.contexts[g].cancelRequested
    requires !s.contexts[g].finalized && !s.contexts[g].speaking
    ensures Inv(s.EmitCall(g).Leave(g))
  {
    assert ContextOk(s, g);
    var called := s.(pending := Some(s.Issued(g))).Send(CallDone(g, s.contexts[g].call.value));
    FinalizeSilent(called, g, ToolCalled);
    LeaveQuiet(s.EmitCall(g), g);
    QuietTwice(s, called, s.EmitCall(g), g);
    QuietTwice(s, s.EmitCall(g), s.EmitCall(g).Leave(g), g);
    QuietKeepsRest(s, s.EmitCall(g).Leave(g), g);
  }

  lemma SpeakBeginKeeps(s: Server, g: nat, fits: bool)
    requires Inv(s) && Enabled(s, Begin(g, fits)) && s.contexts[g].kind.DirectSpeak?
    ensures Inv(s.RunnerBegins(g, fits))
  {
    assert ContextOk(s, g);
    var a := s.With(g, s.contexts[g].(text := s.contexts[g].speech)).Send(TextDelta(g, s.contexts[g].speech));
    SendTextDoneSilent(a, g);
    QuietTwice(s, a, a.SendTextDone(g), g);
    QuietTwice(s, a.SendTextDone(g), s.RunnerBegins(g, fits), g);
    QuietKeepsRest(s, s.RunnerBegins(g, fits), g);
  }

  lemma BeginKeeps(s: Server, g: nat, fits: bool)
    requires Inv(s) && Enabled(s, Begin(g, fits))
    ensures Inv(s.RunnerBegins(g, fits))
  {
    assert ContextOk(s, g);
    match s.contexts[g].kind
    case ModelReply => QuietKeepsRest(s, s.RunnerBegins(g, fits), g);
    case DirectSpeak => SpeakBeginKeeps(s, g, fits);
    case DeferredCall =>
      assert s.Current(g);
      EmitCallKeeps(s, g);
  }

  lemma TextKeeps(s: Server, g: nat, delta: string)
    requires Inv(s) && Enabled(s, Text(g, delta))
    ensures Inv(s.ModelText(g, delta))
  {
    assert ContextOk(s, g);
    if s.Current(g) {
      QuietKeepsRest(s, s.ModelText(g, delta), g);
    } else {
      EnterCancelledKeeps(s, g);
    }
  }

  lemma ToolCallKeeps(s: Server, g: nat, call: Call)
    requires Inv(s) && Enabled(s, ToolCall(g, call))
    ensures Inv(s.ModelCall(g, call))
  {
    assert ContextOk(s, g);
    if !s.Current(g) {
      EnterCancelledKeeps(s, g);
    } else if s.contexts[g].call.Some? {
      EnterFailedKeeps(s, g);
    } else {
      QuietKeepsRest(s, s.ModelCall(g, call), g);
    }
  }

  lemma EndKeeps(s: Server, g: nat)
    requires Inv(s) && Enabled(s, End(g))
    ensures Inv(s.ModelEnds(g))
  {
    assert ContextOk(s, g);
    if s.contexts[g].call.Some? && s.contexts[g].text == "" {
      EmitCallKeeps(s, g);
    } else if !s.contexts[g].speaking {
      EnterFailedKeeps(s, g);
    } else {
      SendTextDoneSilent(s, g);
      QuietTwice(s, s.SendTextDone(g), s.ModelEnds(g), g);
      QuietKeepsRest(s, s.ModelEnds(g), g);
    }
  }

  lemma FailKeeps(s: Server, g: nat)
    requires Inv(s) && Enabled(s, Fail(g))
    ensures Inv(s.EnterFailed(g))
  {
    assert ContextOk(s, g);
    EnterFailedKeeps(s, g);
  }

  lemma SpeechDoneQuiet(s: Server, g: nat, kept: bool)
    requires g < |s.contexts|
    ensures Quiet(s, s.SendAudioDone(g).Finalize(g, Completed), g)
    ensures Quiet(s.SendAudioDone(g).Finalize(g, Completed), s.TtsFinishes(g, true), g)
  {
    var a := s.SendAudioDone(g);
    SendAudioDoneSilent(s, g);
    FinalizeSilent(a, g, Completed);
    QuietTwice(s, a, a.Finalize(g, Completed), g);
    LeaveQuiet(a.Finalize(g, Completed), g);
  }

  lemma SpeechDoneKeeps(s: Server, g: nat, kept: bool)
    requires Inv(s) && Enabled(s, SpeechDone(g, kept))
    ensures Inv(s.TtsFinishes(g, kept))
  {
    assert ContextOk(s, g);
    var a := s.SendAudioDone(g);
    SendAudioDoneSilent(s, g);
    FinalizeSilent(a, g, Completed);
    SpeechDoneQuiet(s, g, kept);
    QuietTwice(s, a.Finalize(g, Completed), s.TtsFinishes(g, kept), g);
    QuietKeepsRest(s, s.TtsFinishes(g, kept), g);
  }

  lemma CleanedUpKeeps(s: Server, g: nat)
    requires Inv(s) && Enabled(s, CleanedUp(g))
    ensures Inv(s.CleanupEnds(g))
  {
    EndEarlyOver(s, g, CutOff);
    NoticeEndEarlyOver(s, g, Ending.Failed);
    OverKeeps(s, s.CleanupEnds(g), g);
  }

  lemma CancelledKeeps(s: Server, g: nat)
    requires Inv(s) && Enabled(s, Cancelled(g))
    ensures Inv(s.CancelDelivered(g))
  {
    assert ContextOk(s, g);
    var s' := s.CancelDelivered(g);
    var a := s.With(g, s.contexts[g].(cancelRequested := false));
    if s.contexts[g].phase.FailCleanup? {
      LeaveQuiet(a, g);
    } else if !s.contexts[g].phase.NotStarted? && !s.contexts[g].speaking {
      EndEarlyOver(a, g, CutOff);
    }
    QuietTwice(s, a, s', g);
    QuietKeepsRest(s, s', g);
  }

  lemma ForgetCancelling(s: Server, g: nat)
    requires Inv(s) && g < |s.contexts| && s.contexts[g].finalized
    ensures Inv(s.(cancelling := s.cancelling - {g}))
  {
    var s' := s.(cancelling := s.cancelling - {g});
    forall h: nat | h < |s.contexts|
      ensures ContextOk(s', h)
    {
      assert ContextOk(s, h);
    }
    forall h | h in s.everCancelled
      ensures CancelledIsSilent(s', h)
    {
      assert CancelledIsSilent(s, h);
    }
  }

  lemma EndSpeechAside(s: Server, g: nat, rest: set<nat>)
    requires g < |s.contexts|
    ensures s.(cancelling := rest).EndSpeech(g, CutOff) == s.EndSpeech(g, CutOff).(cancelling := rest)
  {
    var a := s.SendTextDone(g);
    var b := a.SendAudioDone(g);
    assert s.(cancelling := rest).SendTextDone(g) == a.(cancelling := rest);
    assert a.(cancelling := rest).SendAudioDone(g) == b.(cancelling := rest);
  }

  lemma CancelEndsKeeps(s: Server, g: nat)
    requires Inv(s) && Enabled(s, CancelEnds(g))
    ensures Inv(s.CancelResumes(g))
  {
    assert ContextOk(s, g);
    if s.contexts[g].finalized {
      ForgetCancelling(s, g);
    } else {
      EndSpeechSilent(s, g, CutOff);
      QuietKeepsRest(s, s.EndSpeech(g, CutOff), g);
      ForgetCancelling(s.EndSpeech(g, CutOff), g);
      EndSpeechAside(s, g, s.cancelling - {g});
      assert s.EndSpeech(g, CutOff).cancelling == s.cancelling;
    }
  }

  // ---- The other steps ----

  lemma StartKeeps(s: Server, kind: Kind, speech: string, call: Option<Call>)
    requires Inv(s) && Enabled(s, Start(kind, speech, call))
    ensures Inv(s.StartResponse(kind, speech, call))
  {
    var s' := s.StartResponse(kind, speech, call);
    if s' != s {
      forall h: nat | h < |s'.contexts|
        ensures ContextOk(s', h)
      {
        if h < |s.contexts| {
          assert ContextOk(s, h);
        }
      }
      forall h | h in s'.everCancelled
        ensures CancelledIsSilent(s', h)
      {
        assert CancelledIsSilent(s, h);
        assert ContextOk(s, h);
      }
    }
  }

  lemma CancelKeeps(s: Server, generation: Option<nat>, responseId: Option<nat>)
    requires Inv(s)
    ensures Inv(s.CancelRequested(generation, responseId))
  {
    var s' := s.CancelRequested(generation, responseId);
    if s.CancelHits(generation, responseId) {
      var g := s.response.value;
      forall h: nat | h < |s'.contexts|
        ensures ContextOk(s', h)
      {
        assert ContextOk(s, h);
      }
      forall h | h in s'.everCancelled
        ensures CancelledIsSilent(s', h)
      {
        forall e | e in s'.outbound.queue
          ensures !AudioOf(e, h)
        {
          T.PurgeMembers(s.outbound.queue, g, e);
          assert h != g ==> CancelledIsSilent(s, h);
        }
      }
      forall e | e in s'.outbound.queue && !e.Notice?
        ensures e.generation < |s'.contexts|
      {
        T.PurgeMembers(s.outbound.queue, g, e);
      }
    }
  }

  lemma FrameKeeps(s: Server, g: nat, frame: seq<byte>)
    requires Inv(s) && Enabled(s, Frame(g, frame))
    ensures Inv(s.AudioFrame(g, frame))
  {
    var s' := s.AudioFrame(g, frame);
    if s.Current(g) {
      assert ContextOk(s, g);
      forall h: nat | h < |s'.contexts|
        ensures ContextOk(s', h)
      {
        assert ContextOk(s, h);
      }
      forall h | h in s'.everCancelled
        ensures CancelledIsSilent(s', h)
      {
        assert CancelledIsSilent(s, h);
      }
    }
  }

  /** Only the outbound queue shrinks, or fields outside the invariant change. */
  lemma OutboundShrinks(s: Server, s': Server)
    requires Inv(s) && s' == s.(outbound := s'.outbound)
    requires forall e :: e in s'.outbound.queue ==> e in s.outbound.queue || e.Notice?
    requires s'.outbound.cancelled <= s.outbound.cancelled
    ensures Inv(s')
  {
    forall h: nat | h < |s'.contexts|
      ensures ContextOk(s', h)
    {
      assert ContextOk(s, h);
    }
    forall h | h in s'.everCancelled
      ensures CancelledIsSilent(s', h)
    {
      assert CancelledIsSilent(s, h);
    }
  }

  /** The conversation fields are free to change as long as no call appears. */
  lemma SettingsChange(s: Server, s': Server)
    requires Inv(s)
    requires s' == s.(turnId := s'.turnId, turns := s'.turns, revision := s'.revision, pending := s'.pending,
                      tools := s'.tools, replayOpen := s'.replayOpen, exchanges := s'.exchanges)
    requires CallsAreFree(s')
    ensures Inv(s')
  {
    forall h: nat | h < |s'.contexts|
      ensures ContextOk(s', h)
    {
      assert ContextOk(s, h);
    }
    forall h | h in s'.everCancelled
      ensures CancelledIsSilent(s', h)
    {
      assert CancelledIsSilent(s, h);
    }
  }

  lemma ItemKeeps(s: Server, item: Item, kept: bool)
    requires Inv(s)
    ensures Inv(s.ItemCreated(item, kept))
  {
    var s' := s.ItemCreated(item, kept);
    var unsent := s'.(outbound := s.outbound);
    SettingsChange(s, unsent);
    OutboundShrinks(unsent, s');
  }

  lemma BargeInKeeps(s: Server, interrupt: bool)
    requires Inv(s)
    ensures Inv(s.SpeechStarts(interrupt))
  {
    var turned := s.(revision := s.revision + 1, turnId := Some(s.turns), turns := s.turns + 1, pending := None);
    SettingsChange(s, turned);
    if interrupt && s.CancelHits(None, None) {
      CancelKeeps(turned, None, None);
    } else {
      OutboundShrinks(turned, turned.Send(Notice));
    }
  }

  lemma OpenTurnKeeps(s: Server)
    requires Inv(s)
    ensures Inv(s.OpensTurn())
  {
    var turned := s.(revision := s.revision + 1, turnId := Some(s.turns), turns := s.turns + 1);
    SettingsChange(s, turned);
    OutboundShrinks(turned, turned.Send(Notice));
  }

  /** Every step of every interleaving keeps the invariant. */
  lemma StepKeepsInv(s: Server, step: Step)
    requires Inv(s) && Enabled(s, step)
    ensures Inv(Apply(s, step))
  {
    match step
    case Start(kind, speech, call) => StartKeeps(s, kind, speech, call);
    case Begin(g, fits) => BeginKeeps(s, g, fits);
    case Text(g, delta) => TextKeeps(s, g, delta);
    case ToolCall(g, call) => ToolCallKeeps(s, g, call);
    case End(g) => EndKeeps(s, g);
    case Fail(g) => FailKeeps(s, g);
    case SpeechDone(g, kept) => SpeechDoneKeeps(s, g, kept);
    case CleanedUp(g) => CleanedUpKeeps(s, g);
    case Cancelled(g) => CancelledKeeps(s, g);
    case Cancel(generation, responseId) => CancelKeeps(s, generation, responseId);
    case CancelEnds(g) => CancelEndsKeeps(s, g);
    case Frame(g, frame) => FrameKeeps(s, g, frame);
    case Take => OutboundShrinks(s, Apply(s, step));
    case Transmitted => OutboundShrinks(s, Apply(s, step));
    case Other => OutboundShrinks(s, Apply(s, step));
    case BargeIn(interrupt) => BargeInKeeps(s, interrupt);
    case OpenTurn => OpenTurnKeeps(s);
    case ForgetTurn => SettingsChange(s, Apply(s, step));
    case CreateItem(item, kept) => ItemKeeps(s, item, kept);
    case CloseReplay => SettingsChange(s, Apply(s, step));
    case Configure(tools) => SettingsChange(s, Apply(s, step));
  }

  lemma {:induction false} RunKeepsInv(s: Server, steps: seq<Step>)
    requires Inv(s) && Possible(s, steps)
    ensures Inv(Execute(s, steps))
    decreases |steps|
  {
    if steps == [] {
    } else {
      StepKeepsInv(s, steps[0]);
      RunKeepsInv(Apply(s, steps[0]), steps[1..]);
    }
  }
}
