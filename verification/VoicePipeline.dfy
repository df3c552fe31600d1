/**
 The response half of `VoicePipeline` (pipeline.py), in place.

 Every handler runs up to its next suspension. It is proved equal to its step in
 `ResponseProtocol`, and to keep the invariant of `ResponseInvariant`, unless it raises;
 it raises only when the transport takes no more events, and then the caller ends the
 session. The methods before the handlers are their parts.
 */
module VoicePipelines {
  import opened Options
  import opened Wire
  import opened ResponseProtocol
  import opened ResponseInvariant
  import C = Cancellation
  import T = Transport

  class VoicePipeline {
    var contexts: seq<Context>
    var response: Option<nat>
    const cancellation: C.GenerationCancellation
    const transport: T.WebSocketTransport
    var cancelling: set<nat>
    ghost var everCancelled: set<nat>
    var turnId: Option<nat>
    var turns: nat
    var revision: int
    var pending: Option<FunctionCall>
    var tools: set<nat>
    var toolsFrozen: bool
    var replayOpen: bool
    var exchanges: seq<(FunctionCall, CallOutput)>

    ghost function View(): Server
      reads this, cancellation, transport
    {
      Server(contexts, response, cancellation.View(), transport.View(), cancelling, everCancelled,
             turnId, turns, revision, pending, tools, toolsFrozen, replayOpen, exchanges)
    }

    /** The only reason for which a method raises. */
    predicate Unsendable()
      reads transport
    {
      transport.Obstacle().Some?
    }

    constructor (transport: T.WebSocketTransport)
      requires transport.View() == T.EMPTY
      ensures View() == INITIAL && Inv(View()) && this.transport == transport && fresh(cancellation)
    {
      contexts, response, cancelling, everCancelled := [], None, {}, {};
      turnId, turns, revision, pending := None, 0, -1, None;
      tools, toolsFrozen, replayOpen, exchanges := {}, false, true, [];
      cancellation := new C.GenerationCancellation();
      this.transport := transport;
      new;
      InitialInv();
    }

    method SendTextDone(g: nat) returns (r: Outcome<T.SendError>)
      requires g < |contexts|
      modifies this, transport
      ensures r.Pass? ==> View() == old(View()).SendTextDone(g)
      ensures r.Raised? ==> Unsendable()
    {
      var c := contexts[g];
      if c.textDone {
        return Pass;
      }
      contexts := contexts[g := c.(textDone := true)];
      r := transport.Send(TextDone(g, c.text));
    }

    method SendAudioDone(g: nat) returns (r: Outcome<T.SendError>)
      requires g < |contexts|
      modifies this, transport
      ensures r.Pass? ==> View() == old(View()).SendAudioDone(g)
      ensures r.Raised? ==> Unsendable()
    {
      var c := contexts[g];
      if c.audioDone {
        return Pass;
      }
      contexts := contexts[g := c.(audioDone := true)];
      r := transport.Send(AudioDone(g));
    }

    method FinalizeResponse(g: nat, ending: Ending) returns (r: Outcome<T.SendError>)
      requires g < |contexts|
      modifies this, transport, cancellation
      ensures r.Pass? ==> View() == old(View()).Finalize(g, ending)
      ensures r.Raised? ==> Unsendable()
    {
      var c := contexts[g];
      if c.finalized {
        return Pass;
      }
      contexts := contexts[g := c.(finalized := true)];
      :- transport.Send(Done(g, ending));
      var finished := cancellation.Finish(c.token);
      r := Pass;
    }

    method EndSpeech(g: nat, ending: Ending) returns (r: Outcome<T.SendError>)
      requires g < |contexts|
      modifies this, transport, cancellation
      ensures r.Pass? ==> View() == old(View()).EndSpeech(g, ending)
      ensures r.Raised? ==> Unsendable()
    {
      r := Pass;
      :- SendTextDone(g);
      :- SendAudioDone(g);
      r := FinalizeResponse(g, ending);
    }

    method Leave(g: nat)
      requires g < |contexts|
      modifies this
      ensures View() == old(View()).Leave(g)
    {
      contexts := contexts[g := contexts[g].(phase := Exited)];
      if response == Some(g) {
        response := None;
      }
    }

    method EmitToolCall(g: nat) returns (r: Outcome<T.SendError>)
      requires g < |contexts| && contexts[g].call.Some?
      modifies this, transport, cancellation
      ensures r.Pass? ==> View() == old(View()).EmitCall(g)
      ensures r.Raised? ==> Unsendable()
    {
      var c := contexts[g];
      pending := Some(FunctionCall(g, c.call.value, Origin(c.token.turnId, c.token.revision, g, g)));
      :- transport.Send(CallDone(g, c.call.value));
      r := FinalizeResponse(g, ToolCalled);
    }

    /** The tail shared by the exception handlers of the runners. */
    method EndEarly(g: nat, ending: Ending) returns (r: Outcome<T.SendError>)
      requires g < |contexts|
      modifies this, transport, cancellation
      ensures r.Pass? ==> View() == old(View()).EndEarly(g, ending)
      ensures r.Raised? ==> Unsendable()
    {
      var c := contexts[g];
      if c.call.None? || c.speaking {
        :- EndSpeech(g, ending);
      } else {
        :- FinalizeResponse(g, ending);
      }
      Leave(g);
      r := Pass;
    }

    method EnterCancelled(g: nat) returns (r: Outcome<T.SendError>)
      requires g < |contexts|
      modifies this, transport, cancellation
      ensures r.Pass? ==> View() == old(View()).EnterCancelled(g)
      ensures r.Raised? ==> Unsendable()
    {
      if contexts[g].speaking {
        contexts := contexts[g := contexts[g].(phase := CancelCleanup)];
        return Pass;
      }
      r := EndEarly(g, CutOff);
    }

    method EnterFailed(g: nat) returns (r: Outcome<T.SendError>)
      requires g < |contexts|
      modifies this, transport, cancellation
      ensures r.Pass? ==> View() == old(View()).EnterFailed(g)
      ensures r.Raised? ==> Unsendable()
    {
      if contexts[g].speaking {
        contexts := contexts[g := contexts[g].(phase := FailCleanup)];
        return Pass;
      }
      :- transport.Send(Notice);
      r := EndEarly(g, Ending.Failed);
    }

    method AssignTurn()
      modifies this
      ensures View() == if old(turnId).Some? then old(View())
                        else old(View()).(turnId := Some(old(turns)), turns := old(turns) + 1,
                                          revision := old(revision) + 1)
    {
      if turnId.None? {
        revision := revision + 1;
        turnId := Some(turns);
        turns := turns + 1;
      }
    }

    method CreateResponse(kind: Kind, speech: string, call: Option<Call>) returns (r: Outcome<T.SendError>)
      requires response.None? && (kind.DirectSpeak? || pending.None?)
      modifies this, transport, cancellation
      ensures r.Pass? ==> View() == old(View()).StartResponse(kind, speech, call)
      ensures r.Raised? ==> Unsendable()
    {
      if !kind.DirectSpeak? {
        toolsFrozen := true;
      }
      AssignTurn();
      var g := |contexts|;
      var token := cancellation.Start(turnId.value, revision, g);
      var context := Context(kind, token, speech, call, "", 0, false, false, false, false, false, NotStarted);
      contexts := contexts + [context];
      response := Some(g);
      r := transport.Send(Created(g));
    }

    /** The opening of a cancellation, up to the wait for the runner. */
    method BeginCancel(generation: Option<nat>)
      requires response.Some? ==> response.value < |contexts|
      modifies this, transport, cancellation
      ensures View() == old(View()).CancelRequested(generation, None)
    {
      if response.None? {
        return;
      }
      var g := response.value;
      var cancelled := cancellation.Cancel(generation);
      if cancelled.None? {
        return;
      }
      var dropped := transport.CancelGeneration(g);
      var c := contexts[g];
      contexts := contexts[g := c.(cancelRequested := !c.phase.Exited?)];
      cancelling := cancelling + {g};
      everCancelled := everCancelled + {g};
    }

    method OpenTurn()
      modifies this`revision, this`turnId, this`turns
      ensures View() == old(View()).(revision := old(revision) + 1, turnId := Some(old(turns)), turns := old(turns) + 1)
    {
      revision := revision + 1;
      turnId := Some(turns);
      turns := turns + 1;
    }

    /** The opening of a spoken filler, whose whole text is known. */
    method SpeakFiller(g: nat, fits: bool) returns (r: Outcome<T.SendError>)
      requires g < |contexts| && contexts[g].kind.DirectSpeak?
      modifies this, transport
      ensures r.Pass? ==> View() == old(View()).RunnerBegins(g, fits)
      ensures r.Raised? ==> Unsendable()
    {
      var c := contexts[g];
      contexts := contexts[g := c.(text := c.speech)];
      :- transport.Send(TextDelta(g, c.speech));
      :- SendTextDone(g);
      contexts := contexts[g := contexts[g].(phase := if fits then AwaitTts else Streaming, speaking := fits)];
      r := Pass;
    }

    // ---- Handlers ----

    /** `slotTaken`: another response is already deferred behind the active filler. */
    method StartResponse(kind: Kind, speech: string, call: Option<Call>, slotTaken: bool)
      returns (r: Outcome<T.SendError>, refused: Option<Refusal>)
      requires Inv(View()) && Enabled(View(), Start(kind, speech, call))
      modifies this, transport, cancellation
      ensures r.Pass? ==> View() == old(View()).StartResponse(kind, speech, call) && Inv(View())
      ensures r.Pass? ==> refused == old(View()).StartRefusal(kind, slotTaken)
      ensures r.Raised? ==> Unsendable()
    {
      StepKeepsInv(View(), Start(kind, speech, call));
      r, refused := Pass, None;
      if response.Some? {
        if !kind.DirectSpeak? && contexts[response.value].kind.DirectSpeak? {
          refused := Some(if slotTaken then SessionStateConflict else Deferred);
        } else {
          refused := Some(ResponseActive);
        }
        return;
      }
      if !kind.DirectSpeak? && pending.Some? {
        refused := Some(ToolCallStateConflict);
        return;
      }
      r := CreateResponse(kind, speech, call);
    }

    method BeginRunner(g: nat, fits: bool) returns (r: Outcome<T.SendError>)
      requires Inv(View()) && Enabled(View(), Begin(g, fits))
      modifies this, transport, cancellation
      ensures r.Pass? ==> View() == old(View()).RunnerBegins(g, fits) && Inv(View())
      ensures r.Raised? ==> Unsendable()
    {
      StepKeepsInv(View(), Begin(g, fits));
      var c := contexts[g];
      match c.kind {
        case ModelReply =>
          contexts := contexts[g := c.(phase := Streaming)];
        case DirectSpeak =>
          r := SpeakFiller(g, fits);
          return;
        case DeferredCall =>
          if cancellation.View().IsCurrent(c.token) {
            :- EmitToolCall(g);
            Leave(g);
          } else {
            :- EndEarly(g, CutOff);
          }
      }
      r := Pass;
    }

    method OnTextDelta(g: nat, delta: string) returns (r: Outcome<T.SendError>)
      requires Inv(View()) && Enabled(View(), Text(g, delta))
      modifies this, transport, cancellation
      ensures r.Pass? ==> View() == old(View()).ModelText(g, delta) && Inv(View())
      ensures r.Raised? ==> Unsendable()
    {
      StepKeepsInv(View(), Text(g, delta));
      var c := contexts[g];
      if !cancellation.View().IsCurrent(c.token) {
        r := EnterCancelled(g);
        return;
      }
      contexts := contexts[g := c.(speaking := true, text := c.text + delta)];
      r := transport.Send(TextDelta(g, delta));
    }

    method OnToolCall(g: nat, call: Call) returns (r: Outcome<T.SendError>)
      requires Inv(View()) && Enabled(View(), ToolCall(g, call))
      modifies this, transport, cancellation
      ensures r.Pass? ==> View() == old(View()).ModelCall(g, call) && Inv(View())
      ensures r.Raised? ==> Unsendable()
    {
      StepKeepsInv(View(), ToolCall(g, call));
      var c := contexts[g];
      if !cancellation.View().IsCurrent(c.token) {
        r := EnterCancelled(g);
      } else if c.call.Some? {
        r := EnterFailed(g);
      } else {
        contexts := contexts[g := c.(call := Some(call))];
        r := Pass;
      }
    }

    method OnStreamEnd(g: nat) returns (r: Outcome<T.SendError>)
      requires Inv(View()) && Enabled(View(), End(g))
      modifies this, transport, cancellation
      ensures r.Pass? ==> View() == old(View()).ModelEnds(g) && Inv(View())
      ensures r.Raised? ==> Unsendable()
    {
      StepKeepsInv(View(), End(g));
      var c := contexts[g];
      if c.call.Some? && c.text == "" {
        :- EmitToolCall(g);
        Leave(g);
        return Pass;
      }
      if !c.speaking {
        r := EnterFailed(g);
        return;
      }
      :- SendTextDone(g);
      contexts := contexts[g := contexts[g].(phase := AwaitTts)];
      r := Pass;
    }

    method OnSpeechDone(g: nat, kept: bool) returns (r: Outcome<T.SendError>)
      requires Inv(View()) && Enabled(View(), SpeechDone(g, kept))
      modifies this, transport, cancellation
      ensures r.Pass? ==> View() == old(View()).TtsFinishes(g, kept) && Inv(View())
      ensures r.Raised? ==> Unsendable()
    {
      StepKeepsInv(View(), SpeechDone(g, kept));
      r := Pass;
      :- SendAudioDone(g);
      :- FinalizeResponse(g, Completed);
      if kept {
        Leave(g);
        return Pass;
      }
      r := EnterFailed(g);
    }

    method OnCleanedUp(g: nat) returns (r: Outcome<T.SendError>)
      requires Inv(View()) && Enabled(View(), CleanedUp(g))
      modifies this, transport, cancellation
      ensures r.Pass? ==> View() == old(View()).CleanupEnds(g) && Inv(View())
      ensures r.Raised? ==> Unsendable()
    {
      StepKeepsInv(View(), CleanedUp(g));
      if contexts[g].phase.FailCleanup? {
        :- transport.Send(Notice);
        r := EndEarly(g, Ending.Failed);
      } else {
        r := EndEarly(g, CutOff);
      }
    }

    method OnCancelledError(g: nat) returns (r: Outcome<T.SendError>)
      requires Inv(View()) && Enabled(View(), Cancelled(g))
      modifies this, transport, cancellation
      ensures r.Pass? ==> View() == old(View()).CancelDelivered(g) && Inv(View())
      ensures r.Raised? ==> Unsendable()
    {
      StepKeepsInv(View(), Cancelled(g));
      var c := contexts[g].(cancelRequested := false);
      contexts := contexts[g := c];
      match c.phase {
        case NotStarted =>
          contexts := contexts[g := c.(phase := Exited)];
        case Streaming =>
          :- EnterCancelled(g);
        case AwaitTts =>
          :- EnterCancelled(g);
        case CancelCleanup =>
          Leave(g);
        case FailCleanup =>
          Leave(g);
        case Exited =>
      }
      r := Pass;
    }

    method OnFailure(g: nat) returns (r: Outcome<T.SendError>)
      requires Inv(View()) && Enabled(View(), Fail(g))
      modifies this, transport, cancellation
      ensures r.Pass? ==> View() == old(View()).EnterFailed(g) && Inv(View())
      ensures r.Raised? ==> Unsendable()
    {
      StepKeepsInv(View(), Fail(g));
      r := EnterFailed(g);
    }

    method CancelResponse(generation: Option<nat>, responseId: Option<nat>) returns (refused: Option<Refusal>)
      requires Inv(View()) && Enabled(View(), Step.Cancel(generation, responseId))
      modifies this, transport, cancellation
      ensures View() == old(View()).CancelRequested(generation, responseId) && Inv(View())
      ensures refused == if old(response).Some? && responseId.Some? && responseId != old(response)
                         then Some(ResponseMismatch) else None
    {
      StepKeepsInv(View(), Step.Cancel(generation, responseId));
      if response.Some? && responseId.Some? && responseId != response {
        return Some(ResponseMismatch);
      }
      BeginCancel(generation);
      refused := None;
    }

    method ResumeCancel(g: nat) returns (r: Outcome<T.SendError>)
      requires Inv(View()) && Enabled(View(), CancelEnds(g))
      modifies this, transport, cancellation
      ensures r.Pass? ==> View() == old(View()).CancelResumes(g) && Inv(View())
      ensures r.Raised? ==> Unsendable()
    {
      StepKeepsInv(View(), CancelEnds(g));
      cancelling := cancelling - {g};
      if contexts[g].finalized {
        return Pass;
      }
      r := EndSpeech(g, CutOff);
    }

    method SendFrame(g: nat, frame: seq<byte>) returns (r: Outcome<T.SendError>)
      requires Inv(View()) && Enabled(View(), Frame(g, frame))
      modifies this, transport
      ensures r.Pass? ==> View() == old(View()).AudioFrame(g, frame) && Inv(View())
      ensures r.Raised? ==> Unsendable()
    {
      StepKeepsInv(View(), Frame(g, frame));
      var c := contexts[g];
      if !cancellation.View().IsCurrent(c.token) {
        return Pass;
      }
      :- transport.Send(AudioDelta(g, c.audioSequence, frame));
      contexts := contexts[g := c.(audioSequence := c.audioSequence + 1)];
      r := Pass;
    }

    /** With a cancellation under way the event is sent by the rest of the handler. */
    method SpeechStarted(interrupt: bool) returns (r: Outcome<T.SendError>)
      requires Inv(View()) && Enabled(View(), BargeIn(interrupt))
      modifies this, transport, cancellation
      ensures r.Pass? ==> View() == old(View()).SpeechStarts(interrupt) && Inv(View())
      ensures r.Raised? ==> Unsendable()
    {
      StepKeepsInv(View(), BargeIn(interrupt));
      r := TakeTurn(interrupt);
    }

    method TakeTurn(interrupt: bool) returns (r: Outcome<T.SendError>)
      requires response.Some? ==> response.value < |contexts|
      modifies this, transport, cancellation
      ensures r.Pass? ==> View() == old(View()).SpeechStarts(interrupt)
      ensures r.Raised? ==> Unsendable()
    {
      OpenTurn();
      pending := None;
      r := InterruptOrAnnounce(interrupt);
    }

    method InterruptOrAnnounce(interrupt: bool) returns (r: Outcome<T.SendError>)
      requires response.Some? ==> response.value < |contexts|
      modifies this, transport, cancellation
      ensures r.Pass? ==> View() == if interrupt && old(View()).CancelHits(None, None)
                                    then old(View()).CancelRequested(None, None) else old(View()).Send(Notice)
      ensures r.Raised? ==> Unsendable()
    {
      r := Pass;
      if interrupt && response.Some? && cancellation.current.Some? {
        BeginCancel(None);
      } else {
        r := transport.Send(Notice);
      }
    }

    method OpenManualTurn() returns (r: Outcome<T.SendError>)
      requires Inv(View()) && Enabled(View(), Step.OpenTurn)
      modifies this, transport
      ensures r.Pass? ==> View() == old(View()).OpensTurn() && Inv(View())
      ensures r.Raised? ==> Unsendable()
    {
      StepKeepsInv(View(), Step.OpenTurn);
      OpenTurn();
      r := transport.Send(Notice);
    }

    method ForgetTurn()
      requires Inv(View()) && Enabled(View(), Step.ForgetTurn)
      modifies this`turnId
      ensures View() == old(View()).(turnId := None) && Inv(View())
    {
      StepKeepsInv(View(), Step.ForgetTurn);
      turnId := None;
    }

    /** `committed`: the conversation still holds an exchange with the id of the output. */
    method CreateConversationItem(item: Item, kept: bool, committed: bool)
      returns (r: Outcome<T.SendError>, refused: Option<Refusal>)
      requires Inv(View()) && Enabled(View(), CreateItem(item, kept))
      modifies this, transport
      ensures r.Pass? ==> View() == old(View()).ItemCreated(item, kept) && Inv(View())
      ensures r.Pass? ==> refused == old(View()).ItemRefusal(item, kept, committed)
      ensures r.Raised? ==> Unsendable()
    {
      StepKeepsInv(View(), CreateItem(item, kept));
      r, refused := AnswerItem(item, kept, committed);
    }

    method AnswerItem(item: Item, kept: bool, committed: bool)
      returns (r: Outcome<T.SendError>, refused: Option<Refusal>)
      requires response.Some? ==> response.value < |contexts|
      modifies this, transport
      ensures r.Pass? ==> View() == old(View()).ItemCreated(item, kept)
      ensures refused == old(View()).ItemRefusal(item, kept, committed)
      ensures r.Raised? ==> Unsendable()
    {
      r := Pass;
      refused := AcceptItem(item, kept, committed);
      if refused.None? {
        r := transport.Send(Notice);
      }
    }

    /** Everything but the acknowledgement. */
    method AcceptItem(item: Item, kept: bool, committed: bool) returns (refused: Option<Refusal>)
      requires response.Some? ==> response.value < |contexts|
      modifies this`pending, this`exchanges
      ensures refused == old(View()).ItemRefusal(item, kept, committed)
      ensures View() == old(View()).ItemCreated(item, kept).(outbound := old(View()).outbound)
    {
      if response.Some? && !(contexts[response.value].kind.DirectSpeak? && item.OutputItem?) {
        return Some(ToolCallStateConflict);
      }
      match item {
        case Message(_) => refused := if kept then None else Some(NotKept);
        case CallItem(call) => refused := RestoreCall(call);
        case OutputItem(output) => refused := CommitOutput(output, kept, committed);
      }
    }

    method RestoreCall(call: FunctionCall) returns (refused: Option<Refusal>)
      requires response.None?
      modifies this`pending
      ensures refused == old(View()).ItemRefusal(CallItem(call), true, false)
      ensures pending == if refused.None? then Some(call) else old(pending)
    {
      if pending.Some? {
        return if call == pending.value then None else Some(ToolCallStateConflict);
      }
      if !replayOpen || toolsFrozen {
        return Some(ToolCallStateConflict);
      }
      if call.call.name !in tools {
        return Some(UnknownToolName);
      }
      pending := Some(call);
      refused := None;
    }

    method CommitOutput(output: CallOutput, kept: bool, committed: bool) returns (refused: Option<Refusal>)
      requires response.Some? ==> response.value < |contexts| && contexts[response.value].kind.DirectSpeak?
      modifies this`pending, this`exchanges
      ensures refused == old(View()).ItemRefusal(OutputItem(output), kept, committed)
      ensures refused.None? ==> pending == None && exchanges == old(exchanges) + [(old(pending).value, output)]
      ensures refused.Some? ==> pending == old(pending) && exchanges == old(exchanges)
    {
      if pending.None? {
        return Some(if committed then DuplicateToolCallOutput else UnknownToolCallOutput);
      }
      if output.callId != pending.value.call.callId {
        return Some(UnknownToolCallOutput);
      }
      if output.name != pending.value.call.name {
        return Some(ToolCallStateConflict);
      }
      if output.origin != pending.value.origin {
        return Some(StaleToolCallOutput);
      }
      if !kept {
        return Some(NotKept);
      }
      exchanges := exchanges + [(pending.value, output)];
      pending := None;
      refused := None;
    }

    method CloseReplay()
      requires Inv(View()) && Enabled(View(), Step.CloseReplay)
      modifies this`replayOpen
      ensures View() == old(View()).(replayOpen := false) && Inv(View())
    {
      StepKeepsInv(View(), Step.CloseReplay);
      replayOpen := false;
    }
  }
}
