# Verification of the Hugging Voice service

This project models the concurrent core of the voice service and proves properties of
that model. Every module follows one component of the service: a value-level
specification of what each step does, lemmas about it, and, where the component changes
its fields in place, a class whose methods are proved equal to the specification.

Check everything with `dafny verify dfyconfig.toml`.

## What is modelled

| modules | component |
|---|---|
| `Cancellation`, `Wire`, `Transport`, `Client` | generation tokens, the events of a response and their grammar, the outbound queue, the accepting LiveKit client |
| `ResponseProtocol`, `ResponseInvariant`, `ResponseSafety`, `ResponseRecord`, `ResponseOutcome`, `VoicePipelines` | response runners, cancellation, tool calls, as steps that interleave freely |
| `TtsPool`, `TtsFairness`, `TtsLedger`, `TtsScheduling` | the speech synthesis worker pool |
| `SileroVad`, `SessionVads`, `AudioBuffers`, `TurnProtocol`, `TurnSafety`, `TurnRecord`, `TurnFrontEnds` | voice activity, the audio buffer and the semantic turn machine |
| `Segmentation`, `TextSegmenter`, `ThinkFilter`, `ModelStream`, `Reframing` | streaming algorithms over text and audio |
| `Conversations`, `Capacity`, `Sessions` | the bounded conversation, slots and sessions |
| `RoundRobin`, `WaitingLine`, `TurnScheduling`, `SttScheduling` | the turn and transcription schedulers |
| `Options` | `Option`, `Result`, and the outcome of a method that may raise |

A step is one asyncio handler up to its next real suspension. Runs are all sequences of
enabled steps, so a statement over runs covers every interleaving. Neural networks,
timers, request contents and the outcome of speech synthesis are oracles: parameters or
free choices of the run.

## What was found

- Two responses can overlap. A runner that failed waits for its speech task inside the
  `except Exception` handler. A cancellation delivered there leaves the handler at once:
  the session turns idle without a done event. A deferred reply waiting for that may send
  its created event before the cancelling handler resumes and sends the missing one. The
  client ends the session on this trace (`OverlapHappens`). Traces are accepted exactly
  when every response is created in a state whose newest response is finalized
  (`AcceptedExactlyWhenStartsAreClean`), a check that `_start_response` lacks. The risk is
  exactly a cancellation of such a runner that leaves no call pending: without one all
  runs are accepted (`AcceptedUnlessRisky`), and each one can be continued to an overlap
  (`RiskyStepOverlaps`). A pending call keeps replies from starting, and spoken fillers
  come from the event consumer, which waits for the cancellation
  (`NothingStartsWhileHeld`).
- A runner cancelled before its first step never reaches the `finally` block that clears
  the active response, so the session creates no further response. This happens
  (`EarlyCancelHappens`), it lasts (`StuckForGood`), and nothing else causes it
  (`StuckExactlyAfterEarlyCancel`).
- The reasoning filter reports a marker in visible text if and only if one chunk holds it
  whole after the visible part had begun (`LeakExactlyWhenOneChunkHoldsIt`), so the same
  stream may pass or be reported (`LeakDependsOnChunks`).
- In the segmenter the check for a number such as `3.14` in front of a boundary never
  succeeds, because the stripped candidate ends in punctuation or a closer
  (`NumberNeverFires`).

## Model

| member | source | states |
|---|---|---|
| `Cancellation.NeverCurrentAgain` | services/gpu-service/src/hugging_voice_service/cancellation.py:27-66 | over every run of operations, a token that is not in force, issued no later than the current epoch, never comes into force again |
| `Cancellation.CurrentUntilEnded` | services/gpu-service/src/hugging_voice_service/cancellation.py:27-66 | a started token stays in force exactly until an operation that ends it |
| `Cancellation.GenerationCancellation.Start` | services/gpu-service/src/hugging_voice_service/cancellation.py:27-43 | issues a token with a new epoch and makes it the current one |
| `Cancellation.GenerationCancellation.Cancel` | services/gpu-service/src/hugging_voice_service/cancellation.py:45-53 | ends the current token and moves the epoch, or changes nothing when another generation is named or no token is in force |
| `Cancellation.GenerationCancellation.Finish` | services/gpu-service/src/hugging_voice_service/cancellation.py:55-59 | ends the token if and only if it is in force |
| `Cancellation.GenerationCancellation.Reset` | services/gpu-service/src/hugging_voice_service/cancellation.py:64-66 | ends whatever is in force and moves the epoch |
| `Wire.WellFormedResponse` | services/gpu-service/src/hugging_voice_service/pipeline.py:1484-1833 | in a well-formed trace the audio of a response is numbered 0..m-1, each terminal event occurs at most once, and a function call excludes text and audio |
| `Wire.NothingAfterDone` | services/gpu-service/src/hugging_voice_service/pipeline.py:1800-1833 | after its done event a response is never mentioned again |
| `Wire.NoOverlap` | packages/livekit-plugins-hugging-voice/livekit/plugins/hugging_voice/realtime.py:1243-1245 | between two created events the first response is done |
| `Wire.NoAudioAfterAudioDone` | services/gpu-service/src/hugging_voice_service/pipeline.py:1790-1798 | no audio of a response follows its audio-done |
| `Wire.TextDoneRepeatsDeltas` | services/gpu-service/src/hugging_voice_service/pipeline.py:1779-1788 | the final text is the concatenation of the deltas before it |
| `Wire.PartsAreWhole` | services/gpu-service/src/hugging_voice_service/pipeline.py:1692-1716 | in a well-formed trace every frame is 960 bytes and no text delta is empty |
| `Wire.PurgeKeepsWellFormed` | services/gpu-service/src/hugging_voice_service/realtime.py:134-152 | removing the queued tail of the audio of one response keeps a trace well formed, and the parse with it |
| `Transport.WebSocketTransport.Send` | services/gpu-service/src/hugging_voice_service/realtime.py:119-132 | queues the event; swallows audio of a cancelled generation; raises, changing nothing, exactly when the transport is closed, its sender is gone or the queue is full, in this order |
| `Transport.WebSocketTransport.Start` | services/gpu-service/src/hugging_voice_service/realtime.py:113-117 | the sender runs from then on; a second start raises |
| `Transport.WebSocketTransport.CancelGeneration` | services/gpu-service/src/hugging_voice_service/realtime.py:134-152 | the queue afterwards is the old one without the audio of that generation, in order; returns how many were dropped |
| `Transport.WebSocketTransport.Drain` | services/gpu-service/src/hugging_voice_service/realtime.py:134-149 | empties the queue into its retained events, in order, and counts the rest |
| `Transport.WebSocketTransport.TakeNext` | services/gpu-service/src/hugging_voice_service/realtime.py:176-186 | puts the head of the queue on the wire, and skips it exactly if it is audio of a cancelled generation |
| `Transport.WebSocketTransport.Transmitted` | services/gpu-service/src/hugging_voice_service/realtime.py:186-188 | forgets a cancelled generation exactly when the event sent is its done event |
| `Transport.PurgeMembers` | services/gpu-service/src/hugging_voice_service/realtime.py:134-152 | exactly the queued audio of that generation is gone |
| `Client.WellFormedIsAccepted` | packages/livekit-plugins-hugging-voice/livekit/plugins/hugging_voice/realtime.py:1069-1166 | every client, however it interrupts, accepts every well-formed trace |
| `Client.OverlapIsRejected` | packages/livekit-plugins-hugging-voice/livekit/plugins/hugging_voice/realtime.py:1243-1245 | some client rejects every trace in which a response is created while another is open |
| `Client.RefusesExactly` | packages/livekit-plugins-hugging-voice/livekit/plugins/hugging_voice/realtime.py:1069-1166 | a client that never interrupts refuses a trace exactly at its first violation and with that reason; otherwise it knows of the last response exactly what the trace tells. Violations are listed in terms of the trace alone |
| `Client.RealtimeSession.HandleResponseEvent` | packages/livekit-plugins-hugging-voice/livekit/plugins/hugging_voice/realtime.py:1069-1166 | accepts, ignores or faults exactly as the acceptor function says: overlapping responses, sequence gap, frame that is not 960 bytes, call mixed with speech, delta for a closed stream |
| `Client.RealtimeSession.Interrupt` | packages/livekit-plugins-hugging-voice/livekit/plugins/hugging_voice/realtime.py:735-748 | drops the open response and queues its cancellation for the server; raises, changing nothing, when the session is closing or the queue is full |
| `Client.RealtimeSession.ResponseCreated` | packages/livekit-plugins-hugging-voice/livekit/plugins/hugging_voice/realtime.py:1243-1282 | faults if and only if a response is open |
| `Client.RealtimeSession.StartMessage` | packages/livekit-plugins-hugging-voice/livekit/plugins/hugging_voice/realtime.py:1284-1296 | marks the message as started, once |
| `ResponseInvariant.StepKeepsInv` | services/gpu-service/src/hugging_voice_service/pipeline.py:1152-1833 | every step of every task keeps the invariant: the token in force belongs to the newest live response, a cancelled generation has no queued audio, no call is pending while an unfinalized model response is active |
| `ResponseInvariant.RunKeepsInv` | services/gpu-service/src/hugging_voice_service/pipeline.py:1152-1833 | the same over every interleaving |
| `ResponseProtocol.RefusedIffUnchanged` | services/gpu-service/src/hugging_voice_service/pipeline.py:1036-1142 | an item is refused, with the error code of the source, if and only if it changes nothing |
| `ResponseProtocol.StartedUnlessRefused` | services/gpu-service/src/hugging_voice_service/pipeline.py:1165-1192 | a response is created if and only if it is neither refused nor deferred; otherwise nothing changes |
| `ResponseProtocol.ItemRefusalCodes` | services/gpu-service/src/hugging_voice_service/pipeline.py:1036-1100 | when each error code answers a created item, as conditions on the state and the fields of the item |
| `ResponseProtocol.StartRefusalCodes` | services/gpu-service/src/hugging_voice_service/pipeline.py:1164-1191 | when a start is refused, with which code, and when it is put off until a filler is over |
| `ResponseRecord.RunFollowsRecord` | services/gpu-service/src/hugging_voice_service/pipeline.py:1539-1546 | over every run, for every response: its text deltas joined are what the model said while its token was in force, or the text of a filler once begun; its frames are those synthesized, all of them unless it was cancelled; every call sent for it is the one the model made first |
| `ResponseRecord.StepFollows` | services/gpu-service/src/hugging_voice_service/pipeline.py:1409-1777 | every step of every task keeps this agreement with the record, which notes only what the model, the synthesis and the starts delivered |
| `ResponseRecord.PendingCallIsTheModels` | services/gpu-service/src/hugging_voice_service/pipeline.py:1639-1681 | a call becomes pending only as the recorded call of the response that ends, with id, name and arguments, and with the turn and revision in force at its start; or as the replayed item of an offered tool before the tools are frozen |
| `ResponseRecord.CallBecomesPending` | services/gpu-service/src/hugging_voice_service/pipeline.py:1549-1554 | conversely, a reply that ends with a call and no text issues exactly that call, and so does a deferred call still in force |
| `ResponseRecord.NewTurnIsFresh` | services/gpu-service/src/hugging_voice_service/pipeline.py:534-541 | in every run, speech and committed audio open a turn that no response had, with the next revision |
| `ResponseRecord.ForgottenTurnIsOver` | services/gpu-service/src/hugging_voice_service/pipeline.py:1194-1197 | in every run, once the audio was cleared the next response gets a turn that no earlier response had |
| `ResponseOutcome.RunTellsOutcome` | services/gpu-service/src/hugging_voice_service/pipeline.py:1409-1833 | over every run each response has exactly one done event once it is finalized and none before; its status is cancelled if the generation was cancelled, that of a tool call if one was sent, failed if its runner failed by itself, by a second call or by an empty stream, and completed otherwise |
| `ResponseOutcome.ChecksNeverFire` | services/gpu-service/src/hugging_voice_service/pipeline.py:1519-1521 | a runner that goes on by itself always has a token in force: the cancellation is delivered before the staleness check of the stream could fire |
| `ResponseOutcome.FailureIsReported` | services/gpu-service/src/hugging_voice_service/pipeline.py:1601-1628 | a runner that fails while it speaks stops its speech first; otherwise it sends one error and then exactly the events that close its response |
| `ResponseOutcome.CleanupIsSent` | services/gpu-service/src/hugging_voice_service/pipeline.py:1589-1628 | once the speech is gone a failed response is reported and closed, and a cancelled one closed without a report |
| `ResponseOutcome.CancellationIsSent` | services/gpu-service/src/hugging_voice_service/pipeline.py:1589-1600 | a cancellation that reaches a streaming or speaking runner closes its response, or first stops its speech |
| `ResponseOutcome.LateCancellationIsSilent` | services/gpu-service/src/hugging_voice_service/pipeline.py:1601-1637 | one that reaches a runner that has not begun or is cleaning up just ends it |
| `ResponseOutcome.SpeechDoneIsSent` | services/gpu-service/src/hugging_voice_service/pipeline.py:1559-1570 | spoken text ends its response with audio-done and a completed done event; when the conversation refuses the text, a failure is still to be reported |
| `ResponseOutcome.CancelTailIsSent` | services/gpu-service/src/hugging_voice_service/pipeline.py:1769-1777 | the tail of a cancellation closes exactly what the runner has left open |
| `ResponseOutcome.RemembersUntilDone` | services/gpu-service/src/hugging_voice_service/realtime.py:134-188 | in every run the transport remembers exactly the cancelled generations whose done event is not transmitted yet |
| `ResponseOutcome.RunKeepsSettings` | services/gpu-service/src/hugging_voice_service/pipeline.py:255-256 | in every run the tools are those of the last configuration, and context replay is open until the first event that closes it |
| `ResponseOutcome.RunFreezes` | services/gpu-service/src/hugging_voice_service/pipeline.py:1192-1193 | in every run the tools are frozen exactly since the first response that is no filler |
| `ResponseSafety.AcceptedExactlyWhenStartsAreClean` | services/gpu-service/src/hugging_voice_service/pipeline.py:1152-1267 | over every run: all clients accept everything sent if and only if no response was created while the previous one had no done event and no runner |
| `ResponseSafety.WireOfCleanRun` | services/gpu-service/src/hugging_voice_service/realtime.py:119-188 | what actually reached the wire of such a run is itself well formed and accepted |
| `ResponseSafety.CleanUnlessRisky` | services/gpu-service/src/hugging_voice_service/pipeline.py:1601-1637 | creations are clean in every run without a risky step: one that cancels a runner while it cleans up after a failure and no call is pending |
| `ResponseSafety.AcceptedUnlessRisky` | services/gpu-service/src/hugging_voice_service/pipeline.py:1735-1777 | hence all clients accept every run without a risky step |
| `ResponseSafety.RiskyStepOverlaps` | services/gpu-service/src/hugging_voice_service/pipeline.py:1601-1637 | conversely, every risky step, from every reachable state that allows it, can be continued to an overlap of two responses |
| `ResponseSafety.NothingStartsWhileHeld` | services/gpu-service/src/hugging_voice_service/realtime.py:482-489 | with a call pending no response starts while the consumer waits for the cancelled one: replies are refused, and fillers come from the consumer |
| `ResponseSafety.OverlapHappens` | services/gpu-service/src/hugging_voice_service/pipeline.py:1409-1482 | a concrete run from the initial state whose trace is rejected: a spoken filler fails, is cancelled while it cleans up, and a deferred reply starts |
| `ResponseSafety.CancelledAudioStaysUnsent` | services/gpu-service/src/hugging_voice_service/pipeline.py:1735-1777 | once a generation is cancelled no audio of it starts to be sent in any continuation, also after the transport has forgotten it |
| `ResponseSafety.CancelMarks` | services/gpu-service/src/hugging_voice_service/pipeline.py:1735-1768 | a cancellation that takes effect cancels the active response and no other, and leaves none of its audio queued |
| `ResponseSafety.CancelTakesEffect` | services/gpu-service/src/hugging_voice_service/pipeline.py:1735-1768 | a cancellation takes effect exactly when the active response holds the token in force and no other generation or response is named; then its token is out of force, its runner is told to stop and its queued audio is gone; otherwise nothing changes |
| `ResponseSafety.FinishedSpeechIsClosed` | services/gpu-service/src/hugging_voice_service/pipeline.py:1779-1823 | in every run a finished response that spoke, or had no call, has closed its text and its audio |
| `ResponseSafety.PendingCallSettlesOnce` | services/gpu-service/src/hugging_voice_service/pipeline.py:1036-1142 | a pending call is never overwritten; it goes only by speech of the caller or by one output whose call id, name, turn, revision, generation and response are those of the call, which is then the one new exchange |
| `ResponseSafety.AnswerSettles` | services/gpu-service/src/hugging_voice_service/pipeline.py:1067-1125 | conversely, an output that repeats these fields and is kept settles the call |
| `ResponseSafety.SpeechDropsTheCall` | services/gpu-service/src/hugging_voice_service/pipeline.py:534-541 | speech of the caller drops the pending call |
| `ResponseSafety.PendingCallAppears` | services/gpu-service/src/hugging_voice_service/pipeline.py:1639-1681 | a call becomes pending only when its response is done, or when a replay restores it before the tools are frozen |
| `ResponseSafety.CancelledBeforeFirstStep` | services/gpu-service/src/hugging_voice_service/pipeline.py:1629-1637 | a runner that is cancelled before its first step never clears the active response: the session is stuck |
| `ResponseSafety.StuckExactlyByEarlyCancel` | services/gpu-service/src/hugging_voice_service/pipeline.py:1629-1637 | a step makes a session stuck if and only if it delivers a cancellation to a runner that has not begun |
| `ResponseSafety.StuckExactlyAfterEarlyCancel` | services/gpu-service/src/hugging_voice_service/pipeline.py:1764-1768 | over all runs: the session is stuck if and only if some runner was cancelled before it began |
| `ResponseSafety.EarlyCancelHappens` | services/gpu-service/src/hugging_voice_service/pipeline.py:1764-1768 | a concrete run from the initial state that ends stuck |
| `ResponseSafety.StuckForGood` | services/gpu-service/src/hugging_voice_service/pipeline.py:1171-1192 | from then on no run creates another response |
| `VoicePipelines.VoicePipeline.AssignTurn` | services/gpu-service/src/hugging_voice_service/pipeline.py:1194-1196 | a turn is opened if and only if none is known |
| `VoicePipelines.VoicePipeline.StartResponse` | services/gpu-service/src/hugging_voice_service/pipeline.py:1152-1267 | a new token and a created event, or the refusal or deferral of the source: equals its protocol step and keeps the protocol invariant; raises only when the transport takes no more events |
| `VoicePipelines.VoicePipeline.BeginRunner` | services/gpu-service/src/hugging_voice_service/pipeline.py:1409-1436 | the first stretch of a runner of each kind: equals its protocol step and keeps the protocol invariant; raises only when the transport takes no more events |
| `VoicePipelines.VoicePipeline.OnTextDelta` | services/gpu-service/src/hugging_voice_service/pipeline.py:1519-1546 | one model text event: equals its protocol step and keeps the protocol invariant; raises only when the transport takes no more events |
| `VoicePipelines.VoicePipeline.OnToolCall` | services/gpu-service/src/hugging_voice_service/pipeline.py:1519-1532 | one model tool call: equals its protocol step and keeps the protocol invariant; raises only when the transport takes no more events |
| `VoicePipelines.VoicePipeline.OnStreamEnd` | services/gpu-service/src/hugging_voice_service/pipeline.py:1549-1558 | the end of the model stream: equals its protocol step and keeps the protocol invariant; raises only when the transport takes no more events |
| `VoicePipelines.VoicePipeline.OnFailure` | services/gpu-service/src/hugging_voice_service/pipeline.py:1601-1628 | a failure of model or speech: equals its protocol step and keeps the protocol invariant; raises only when the transport takes no more events |
| `VoicePipelines.VoicePipeline.OnSpeechDone` | services/gpu-service/src/hugging_voice_service/pipeline.py:1559-1588 | the speech task returned: equals its protocol step and keeps the protocol invariant; raises only when the transport takes no more events |
| `VoicePipelines.VoicePipeline.OnCleanedUp` | services/gpu-service/src/hugging_voice_service/pipeline.py:1589-1628 | the end of both exception handlers: equals its protocol step and keeps the protocol invariant; raises only when the transport takes no more events |
| `VoicePipelines.VoicePipeline.OnCancelledError` | services/gpu-service/src/hugging_voice_service/pipeline.py:1589-1637 | the delivery of a cancellation in each phase of a runner: equals its protocol step and keeps the protocol invariant; raises only when the transport takes no more events |
| `VoicePipelines.VoicePipeline.EnterCancelled` | services/gpu-service/src/hugging_voice_service/pipeline.py:1589-1600 | equals the beginning of the cancellation handler; raises only when the transport takes no more events |
| `VoicePipelines.VoicePipeline.EnterFailed` | services/gpu-service/src/hugging_voice_service/pipeline.py:1601-1628 | equals the beginning of the failure handler; raises only when the transport takes no more events |
| `VoicePipelines.VoicePipeline.EndEarly` | services/gpu-service/src/hugging_voice_service/pipeline.py:1593-1628 | equals the shared end of the handlers; raises only when the transport takes no more events |
| `VoicePipelines.VoicePipeline.Leave` | services/gpu-service/src/hugging_voice_service/pipeline.py:1629-1637 | the runner is gone; the session is idle only if this response was the active one |
| `VoicePipelines.VoicePipeline.EmitToolCall` | services/gpu-service/src/hugging_voice_service/pipeline.py:1639-1681 | the call of the response becomes pending, is sent and ends the response; raises only when the transport takes no more events |
| `VoicePipelines.VoicePipeline.SendFrame` | services/gpu-service/src/hugging_voice_service/pipeline.py:1692-1716 | a frame is sent with the next sequence number if and only if the token is in force: equals its protocol step and keeps the protocol invariant; raises only when the transport takes no more events |
| `VoicePipelines.VoicePipeline.CancelResponse` | services/gpu-service/src/hugging_voice_service/pipeline.py:1735-1768 | the opening of a cancellation in one step; refused exactly when another response than the active one is named: equals its protocol step and keeps the protocol invariant |
| `VoicePipelines.VoicePipeline.ResumeCancel` | services/gpu-service/src/hugging_voice_service/pipeline.py:1769-1777 | the tail of a cancellation once the runner is gone: equals its protocol step and keeps the protocol invariant; raises only when the transport takes no more events |
| `VoicePipelines.VoicePipeline.SendTextDone` | services/gpu-service/src/hugging_voice_service/pipeline.py:1779-1788 | sends at most one text-done; raises only when the transport takes no more events |
| `VoicePipelines.VoicePipeline.SendAudioDone` | services/gpu-service/src/hugging_voice_service/pipeline.py:1790-1798 | sends at most one audio-done; raises only when the transport takes no more events |
| `VoicePipelines.VoicePipeline.FinalizeResponse` | services/gpu-service/src/hugging_voice_service/pipeline.py:1800-1823 | sends at most one done event and finishes the token; raises only when the transport takes no more events |
| `VoicePipelines.VoicePipeline.SpeechStarted` | services/gpu-service/src/hugging_voice_service/pipeline.py:534-561 | new turn, pending call dropped, response cancelled when interruption is on, else the event at once: equals its protocol step and keeps the protocol invariant; raises only when the transport takes no more events |
| `VoicePipelines.VoicePipeline.OpenManualTurn` | services/gpu-service/src/hugging_voice_service/pipeline.py:1001-1006 | a committed buffer opens a turn and leaves the pending call: equals its protocol step and keeps the protocol invariant; raises only when the transport takes no more events |
| `VoicePipelines.VoicePipeline.ForgetTurn` | services/gpu-service/src/hugging_voice_service/pipeline.py:1033-1033 | cleared audio forgets the turn: equals its protocol step and keeps the protocol invariant |
| `VoicePipelines.VoicePipeline.CloseReplay` | services/gpu-service/src/hugging_voice_service/pipeline.py:255-256 | the first other event ends context replay: equals its protocol step and keeps the protocol invariant |
| `VoicePipelines.VoicePipeline.CreateConversationItem` | services/gpu-service/src/hugging_voice_service/pipeline.py:1036-1142 | message, replayed call or output, with the error code of every rejection: equals its protocol step and keeps the protocol invariant; raises only when the transport takes no more events |
| `TtsPool.StepKeepsValid` | services/gpu-service/src/hugging_voice_service/schedulers/tts.py:96-174 | every critical section keeps the pool invariant: the rotation lists each queue once, at most one job per session is active, the active sessions are those of the active jobs, and the bound holds for what the pool counts as its jobs, which `TtsLedger.OutstandingIsCounted` fixes |
| `TtsPool.NeverIdlesOnWork` | services/gpu-service/src/hugging_voice_service/schedulers/tts.py:226-245 | whenever a job is runnable one is found, at the head of its queue, and a final response if any is runnable |
| `TtsPool.NextIsFirst` | services/gpu-service/src/hugging_voice_service/schedulers/tts.py:226-245 | the next job is the oldest of the first session in the rotation that offers its priority, a filler only while no final response is offered; the session goes to the back and no other queue changes |
| `TtsFairness.BoundedBypass` | services/gpu-service/src/hugging_voice_service/schedulers/tts.py:232-245 | over every run: the sessions served while a session waits with a final response are distinct and were all ahead of it in the rotation |
| `TtsFairness.AheadShrinks` | services/gpu-service/src/hugging_voice_service/schedulers/tts.py:96-127 | every step either serves the waiting session or leaves it no further back, and a dispatch strictly lowers its place |
| `TtsFairness.ServedWithinPlace` | services/gpu-service/src/hugging_voice_service/schedulers/tts.py:153-174 | hence it is dispatched within its place plus one dispatches |
| `TtsLedger.Conservation` | services/gpu-service/src/hugging_voice_service/schedulers/tts.py:96-218 | every accepted job is exactly one of queued, active or settled |
| `TtsLedger.DispatchedInSubmissionOrder` | services/gpu-service/src/hugging_voice_service/schedulers/tts.py:232-252 | the dispatches of a session are a prefix of its submissions without the cancelled ones |
| `TtsLedger.EveryRunIsAccounted` | services/gpu-service/src/hugging_voice_service/schedulers/tts.py:96-218 | both hold after every run from an empty pool |
| `TtsLedger.OutstandingIsCounted` | services/gpu-service/src/hugging_voice_service/schedulers/tts.py:257-258 | the accepted jobs that are neither cancelled nor completed are as many as the queued and active ones together |
| `TtsLedger.BoundHolds` | services/gpu-service/src/hugging_voice_service/schedulers/tts.py:96-107 | that number never exceeds the bound, and a job is taken exactly when the pool is open and the number is below the bound |
| `TtsLedger.EveryRunIsBounded` | services/gpu-service/src/hugging_voice_service/schedulers/tts.py:96-174 | the bound on this number holds after every run from an empty pool |
| `TtsScheduling.TtsScheduler.Create` | services/gpu-service/src/hugging_voice_service/schedulers/tts.py:58-83 | rejects any worker count outside 1 to 4 and a bound below it |
| `TtsScheduling.TtsScheduler.Synthesize` | services/gpu-service/src/hugging_voice_service/schedulers/tts.py:96-107 | refuses exactly when the pool is closed, or queued plus active jobs reach the bound, and otherwise submits; keeps the invariant |
| `TtsScheduling.TtsScheduler.CancelGeneration` | services/gpu-service/src/hugging_voice_service/schedulers/tts.py:112-127 | drops exactly the queued jobs of the token, in order, and an emptied queue with its place in the rotation |
| `TtsScheduling.TtsScheduler.Scan` | services/gpu-service/src/hugging_voice_service/schedulers/tts.py:232-245 | one turn of the rotation stops behind the first session that offers the priority, and changes nothing else |
| `TtsScheduling.TtsScheduler.NextJob` | services/gpu-service/src/hugging_voice_service/schedulers/tts.py:232-245 | a final response in rotation order, or else a filler |
| `TtsScheduling.TtsScheduler.StartJob` | services/gpu-service/src/hugging_voice_service/schedulers/tts.py:153-166 | a woken worker always gets a job, and keeps the invariant |
| `TtsScheduling.TtsScheduler.EndJob` | services/gpu-service/src/hugging_voice_service/schedulers/tts.py:167-174 | frees the session and drops its queue if empty |
| `TtsScheduling.TtsScheduler.DropSessionQueue` | services/gpu-service/src/hugging_voice_service/schedulers/tts.py:247-252 | removes the queue and its place in the rotation |
| `TtsScheduling.TtsScheduler.Close` | services/gpu-service/src/hugging_voice_service/schedulers/tts.py:135-151 | forgets everything queued |
| `SileroVad.MeetsSpecification` | services/gpu-service/src/hugging_voice_service/runtimes/silero.py:187-224 | after any window history the signals are those of the declarative segmentation: each segment starts at the first window at which the earliest joined speech is long enough, and stops at the first at which trailing silence is; the fields of the machine are read off the history |
| `SileroVad.SameSegments` | services/gpu-service/src/hugging_voice_service/runtimes/silero.py:187-224 | two complete segmentations of a history up to the same window have equal segments and the same open one |
| `SileroVad.StartBeforeStop` | services/gpu-service/src/hugging_voice_service/runtimes/silero.py:187-224 | every segment starts before it stops |
| `SessionVads.FramingIsIrrelevant` | services/gpu-service/src/hugging_voice_service/runtimes/silero.py:119-130 | processing a then b gives the signals and state of processing their concatenation |
| `SessionVads.BytesAccounted` | services/gpu-service/src/hugging_voice_service/runtimes/silero.py:119-130 | twice the processed samples plus the remainder is what was received; the remainder stays below one window |
| `SessionVads.StreamMeetsSpecification` | services/gpu-service/src/hugging_voice_service/runtimes/silero.py:119-190 | the signals of any payload are those of the segmentation of its windows; the windows are the payload in order, and the flag of each says whether the answer of the network, given all windows up to it, reaches the threshold |
| `SessionVads.DrainHears` | services/gpu-service/src/hugging_voice_service/runtimes/silero.py:119-130 | the network hears whole windows, which together with the remainder are the received bytes in order |
| `SessionVads.SessionVad.ProcessPcm16` | services/gpu-service/src/hugging_voice_service/runtimes/silero.py:119-130 | equals the stream specification; a cut sample is refused without effect |
| `SessionVads.SessionVad.ProcessWindow` | services/gpu-service/src/hugging_voice_service/runtimes/silero.py:124-129 | takes one window and asks the network with everything it has heard |
| `SessionVads.SessionVad.AdvanceWindow` | services/gpu-service/src/hugging_voice_service/runtimes/silero.py:187-218 | equals the state machine, field by field |
| `SessionVads.SessionVad.ClearTurnState` | services/gpu-service/src/hugging_voice_service/runtimes/silero.py:220-224 | forgets the open segment and candidate |
| `SessionVads.SessionVad.Reset` | services/gpu-service/src/hugging_voice_service/runtimes/silero.py:141-145 | starts over at sample 0 |
| `AudioBuffers.BoundedAudioBuffer.Append` | services/gpu-service/src/hugging_voice_service/sessions.py:63-69 | appends, or raises without effect on a cut sample or beyond the capacity |
| `AudioBuffers.BoundedAudioBuffer.SliceSamples` | services/gpu-service/src/hugging_voice_service/sessions.py:71-78 | answers if and only if the range lies inside the buffer, with exactly its bytes |
| `AudioBuffers.BoundedAudioBuffer.DiscardBefore` | services/gpu-service/src/hugging_voice_service/sessions.py:80-85 | succeeds if and only if the point lies inside the buffer, and keeps exactly what follows |
| `AudioBuffers.BoundedAudioBuffer.Clear` | services/gpu-service/src/hugging_voice_service/sessions.py:87-90 | starts over at sample 0 |
| `TurnSafety.StepKeepsInv` | services/gpu-service/src/hugging_voice_service/pipeline.py:504-1034 | every handler, verdict and timer keeps the joint invariant of buffer, voice activity and turn machine |
| `TurnSafety.NeverOutsideBuffer` | services/gpu-service/src/hugging_voice_service/pipeline.py:534-558 | no slice or discard of any run leaves the buffer |
| `TurnSafety.TurnsPartitionTheStream` | services/gpu-service/src/hugging_voice_service/pipeline.py:885-919 | every committed turn holds exactly its stretch of the input stream; the stretches are ordered and disjoint, and revisions rise, so none is committed twice |
| `TurnSafety.StepCommits` | services/gpu-service/src/hugging_voice_service/pipeline.py:612-818 | one step commits at most one turn, and only the verdict or fallback of the current candidate, a client commit, or a stop in fixed-silence mode does so |
| `TurnSafety.VoidingSteps` | services/gpu-service/src/hugging_voice_service/pipeline.py:572-576 | a resumption, a commit and a clear void every candidate so far |
| `TurnSafety.VoidedNeverCommits` | services/gpu-service/src/hugging_voice_service/pipeline.py:707-771 | a voided candidate commits nothing in any continuation |
| `TurnSafety.VerdictsAreBounded` | services/gpu-service/src/hugging_voice_service/pipeline.py:669-684 | an utterance hears at most two incomplete verdicts; while it is open the counter equals those it heard, fewer than two |
| `TurnRecord.StepCommitsExactly` | services/gpu-service/src/hugging_voice_service/pipeline.py:534-771 | a step commits a turn exactly when it is a stop in fixed-silence mode, a complete or second incomplete verdict or the fallback of the current candidate, or a client commit with something to commit; the turn has the id and revision of the utterance, begins at the later of the reported start and the first sample still buffered at that time, ends at the sample of the signal, the candidate or the buffer, and holds that stretch of the stream |
| `TurnRecord.RunKeepsRecord` | services/gpu-service/src/hugging_voice_service/pipeline.py:534-919 | over every run the committed turns are exactly these, in order |
| `TurnRecord.CandidatesExactly` | services/gpu-service/src/hugging_voice_service/pipeline.py:572-684 | which steps open a candidate and with what audio for the classifier, start its fallback, remove it or void it |
| `TurnRecord.BufferMoves` | services/gpu-service/src/hugging_voice_service/pipeline.py:520-558 | samples are discarded only up to the end of a committed turn, by a restart of the indices, or, while nobody speaks and more than 64,000 bytes wait, all but the last 32,000 samples |
| `TurnRecord.TurnMoves` | services/gpu-service/src/hugging_voice_service/pipeline.py:534-541 | the current turn changes only when speech, a manual commit or a response without a turn opens one, with the next id and revision, and when the audio is cleared |
| `TurnFrontEnds.PayloadIsWindows` | services/gpu-service/src/hugging_voice_service/pipeline.py:504-532 | running the detector over a payload and then handling its signals equals handling window by window |
| `TurnFrontEnds.VerdictsIgnoreVad` | services/gpu-service/src/hugging_voice_service/pipeline.py:612-705 | a verdict commutes with the detector running ahead |
| `TurnFrontEnds.FallbacksIgnoreVad` | services/gpu-service/src/hugging_voice_service/pipeline.py:707-771 | so does a fallback |
| `TurnFrontEnds.SourceRunsAreProtocolRuns` | services/gpu-service/src/hugging_voice_service/pipeline.py:504-705 | every run of the source order, detector first, signals later, verdicts and fallbacks anywhere in between, is a run of the window-by-window protocol |
| `TurnFrontEnds.SourceIsSafe` | services/gpu-service/src/hugging_voice_service/pipeline.py:504-919 | hence it never leaves the buffer, and its turns are ordered, disjoint stretches of the stream |
| `TurnFrontEnds.StepKeepsConsistent` | services/gpu-service/src/hugging_voice_service/pipeline.py:504-1034 | every step of the source order keeps the relation to a protocol state within its invariant, without a fault |
| `TurnFrontEnds.TurnFrontEnd.AppendAudio` | services/gpu-service/src/hugging_voice_service/pipeline.py:504-532 | equals the payload window by window and keeps the invariant; raises exactly for a cut sample or beyond the capacity, without effect |
| `TurnFrontEnds.TurnFrontEnd.BeginAppend` | services/gpu-service/src/hugging_voice_service/pipeline.py:504-516 | buffers the payload and runs the detector over it; raises exactly for a cut sample or beyond the capacity, without effect |
| `TurnFrontEnds.TurnFrontEnd.HandleNext` | services/gpu-service/src/hugging_voice_service/pipeline.py:517-525 | handles the next signal, never leaving the buffer, and keeps the invariant |
| `TurnFrontEnds.TurnFrontEnd.EndAppend` | services/gpu-service/src/hugging_voice_service/pipeline.py:526-532 | trims idle audio and keeps the invariant |
| `TurnFrontEnds.TurnFrontEnd.HandlePending` | services/gpu-service/src/hugging_voice_service/pipeline.py:517-525 | handles all signals of a payload in order |
| `TurnFrontEnds.TurnFrontEnd.SpeechStarted` | services/gpu-service/src/hugging_voice_service/pipeline.py:534-549 | equals the step, with the clamp to the buffer |
| `TurnFrontEnds.TurnFrontEnd.SpeechResumed` | services/gpu-service/src/hugging_voice_service/pipeline.py:572-576 | voids the open candidate |
| `TurnFrontEnds.TurnFrontEnd.SpeechStopCandidate` | services/gpu-service/src/hugging_voice_service/pipeline.py:578-611 | equals the step in both modes; raises only where the protocol marks a fault |
| `TurnFrontEnds.TurnFrontEnd.OnVerdict` | services/gpu-service/src/hugging_voice_service/pipeline.py:626-697 | stale, complete, forced, or wait for the fallback, at any time, also between the signals of a payload; never leaves the buffer and keeps the invariant |
| `TurnFrontEnds.TurnFrontEnd.OnFallback` | services/gpu-service/src/hugging_voice_service/pipeline.py:737-748 | commits only for the current candidate, at any time; never leaves the buffer and keeps the invariant |
| `TurnFrontEnds.TurnFrontEnd.SpeechStopped` | services/gpu-service/src/hugging_voice_service/pipeline.py:789-818 | equals the step: only an open utterance ends; raises only where the protocol marks a fault |
| `TurnFrontEnds.TurnFrontEnd.CompleteTurn` | services/gpu-service/src/hugging_voice_service/pipeline.py:885-919 | equals the step: once per turn and revision, slice, then discard; raises only where the protocol marks a fault |
| `TurnFrontEnds.TurnFrontEnd.TrimIdle` | services/gpu-service/src/hugging_voice_service/pipeline.py:526-532 | keeps the last 32,000 samples while nobody speaks; raises only where the protocol marks a fault |
| `TurnFrontEnds.TurnFrontEnd.CommitAudio` | services/gpu-service/src/hugging_voice_service/pipeline.py:991-1009 | ends the open utterance, or opens and ends one over the buffer; never leaves the buffer and keeps the invariant |
| `TurnFrontEnds.TurnFrontEnd.ClearAudio` | services/gpu-service/src/hugging_voice_service/pipeline.py:1023-1034 | voids, clears and forgets the turn, and keeps the invariant |
| `TurnFrontEnds.TurnFrontEnd.AssignTurn` | services/gpu-service/src/hugging_voice_service/pipeline.py:1194-1196 | a response opens a turn when none is known, and the invariant is kept |
| `TextSegmenter.StreamIsSpoken` | services/gpu-service/src/hugging_voice_service/text_segmenter.py:65-97 | for every chunking: the segments carry exactly the non-whitespace characters of the text in order, each is non-empty, normalized and at most the hard maximum, and the flush adds at most one |
| `TextSegmenter.BufferStaysSmall` | services/gpu-service/src/hugging_voice_service/text_segmenter.py:65-80 | after any feeds at most the hard maximum of characters waits, and the counter is the number of segments |
| `TextSegmenter.CutInsideWord` | services/gpu-service/src/hugging_voice_service/text_segmenter.py:113-127 | a word is cut in two only at the hard maximum, when no blank occurs up to the target |
| `TextSegmenter.CutByTarget` | services/gpu-service/src/hugging_voice_service/text_segmenter.py:113-122 | without a sentence end in reach, text with a blank is cut behind it to at most the first target for the first segment and the later target for the others |
| `TextSegmenter.FirstEnd` | services/gpu-service/src/hugging_voice_service/text_segmenter.py:99-111 | a sentence end lies behind its punctuation and any closers, at whitespace or the end of the buffer |
| `TextSegmenter.NumberNeverFires` | services/gpu-service/src/hugging_voice_service/text_segmenter.py:99-108 | the test for a number in front of the boundary never succeeds, for any lower case that keeps a final punctuation mark or closer, none of which is a digit |
| `TextSegmenter.FirstSomeIsFirst` | services/gpu-service/src/hugging_voice_service/text_segmenter.py:99-111 | the search finds the first position that closes a sentence, if and only if there is one |
| `TextSegmenter.SentenceEndExactly` | services/gpu-service/src/hugging_voice_service/text_segmenter.py:99-111 | the boundary is the end of the first run of punctuation, closers and whitespace that ends a sentence, a run being maximal on both sides |
| `TextSegmenter.NoSentenceEnd` | services/gpu-service/src/hugging_voice_service/text_segmenter.py:99-111 | without such a run there is none |
| `TextSegmenter.LastWordDecides` | services/gpu-service/src/hugging_voice_service/text_segmenter.py:102-109 | a period ends no sentence exactly when the last folded word is an abbreviation or the text ends in a number or in initials |
| `TextSegmenter.InitialsAre` | services/gpu-service/src/hugging_voice_service/text_segmenter.py:108-109 | two single letters with periods, not inside a longer word, are initials |
| `TextSegmenter.SentenceFirst` | services/gpu-service/src/hugging_voice_service/text_segmenter.py:69-71 | a sentence end within the hard maximum is always taken |
| `TextSegmenter.ShortTextWaits` | services/gpu-service/src/hugging_voice_service/text_segmenter.py:113-122 | without a sentence end a text within the target waits, and one without a blank in reach waits up to the hard maximum |
| `TextSegmenter.FlushByWord` | services/gpu-service/src/hugging_voice_service/text_segmenter.py:84-87 | a flushed piece ends behind the last blank in reach, or at the hard maximum when there is none |
| `TextSegmenter.WordBoundary` | services/gpu-service/src/hugging_voice_service/text_segmenter.py:124-127 | just behind the last blank within the limit, if there is one |
| `TextSegmenter.SplitAtSpace` | services/gpu-service/src/hugging_voice_service/text_segmenter.py:135-136 | whitespace separates the words on its two sides |
| `TextSegmenter.OneWord` | services/gpu-service/src/hugging_voice_service/text_segmenter.py:135-136 | a text without whitespace is one word |
| `TextSegmenter.NormalIsTidy` | services/gpu-service/src/hugging_voice_service/text_segmenter.py:135-136 | a normal form has single spaces between words and none at its ends |
| `TextSegmenter.NormalizeTwice` | services/gpu-service/src/hugging_voice_service/text_segmenter.py:135-136 | normalizing twice is normalizing once |
| `TextSegmenter.Configure` | services/gpu-service/src/hugging_voice_service/text_segmenter.py:42-58 | limits are accepted exactly when all range and order checks pass |
| `Segmentation.StreamIsRead` | services/gpu-service/src/hugging_voice_service/text_segmenter.py:65-97 | every reading of the text that ignores spacing finds in the segments what it finds in the text, whatever decides the cuts |
| `Segmentation.FeedLeavesLittle` | services/gpu-service/src/hugging_voice_service/text_segmenter.py:65-80 | after a feed no further cut is due |
| `Segmentation.FlushAddsOne` | services/gpu-service/src/hugging_voice_service/text_segmenter.py:82-97 | a buffer within the limit is flushed as at most one segment |
| `TextSegmenter.SpeechTextSegmenter.SentenceBoundary` | services/gpu-service/src/hugging_voice_service/text_segmenter.py:99-111 | the loop over closing runs finds the first sentence end |
| `TextSegmenter.SpeechTextSegmenter.FindBoundary` | services/gpu-service/src/hugging_voice_service/text_segmenter.py:69-74 | a sentence end within the hard maximum, else the length boundary |
| `TextSegmenter.SpeechTextSegmenter.Take` | services/gpu-service/src/hugging_voice_service/text_segmenter.py:129-132 | removes a prefix and returns its normal form |
| `TextSegmenter.SpeechTextSegmenter.Feed` | services/gpu-service/src/hugging_voice_service/text_segmenter.py:65-80 | equals the specification for the buffer with the new text |
| `TextSegmenter.SpeechTextSegmenter.Flush` | services/gpu-service/src/hugging_voice_service/text_segmenter.py:82-97 | equals the specification and leaves nothing |
| `ThinkFilter.ChunkingIsIrrelevant` | services/gpu-service/src/hugging_voice_service/runtimes/llama_cpp_chat.py:143-185 | for every chunking: without a reported leak the output is the stream itself, or what follows the first closing marker when it opens with one; a leak is reported only if that visible part holds a marker |
| `ThinkFilter.BatchOfThought` | services/gpu-service/src/hugging_voice_service/runtimes/llama_cpp_chat.py:159-185 | a text that opens with the marker shows exactly what follows the first closing marker |
| `ThinkFilter.BatchOfOpenThought` | services/gpu-service/src/hugging_voice_service/runtimes/llama_cpp_chat.py:176-185 | one whose thought is never closed shows nothing |
| `ThinkFilter.BatchOfPlain` | services/gpu-service/src/hugging_voice_service/runtimes/llama_cpp_chat.py:159-175 | the beginning of a marker shows nothing yet, and any other text shows as it is |
| `ThinkFilter.DetectedExactly` | services/gpu-service/src/hugging_voice_service/runtimes/llama_cpp_chat.py:159-168 | for every chunking without a leak, reasoning is noticed exactly when the stream opens with the marker and goes on |
| `ThinkFilter.LeakExactlyWhenOneChunkHoldsIt` | services/gpu-service/src/hugging_voice_service/runtimes/llama_cpp_chat.py:149-157 | for every chunking: a leak is reported if and only if some chunk holds a marker whole after the visible part had begun |
| `ThinkFilter.ShortChunksPass` | services/gpu-service/src/hugging_voice_service/runtimes/llama_cpp_chat.py:152-157 | a stream cut into chunks shorter than the marker is never reported |
| `ThinkFilter.CarrySuffices` | services/gpu-service/src/hugging_voice_service/runtimes/llama_cpp_chat.py:176-180 | seven carried characters find the same closing marker as the whole text |
| `ThinkFilter.LeakDependsOnChunks` | services/gpu-service/src/hugging_voice_service/runtimes/llama_cpp_chat.py:152-156 | a whole stream whose visible part holds a marker passes in one chunking and is reported in another |
| `ThinkFilter.VisibleTextFilter.Push` | services/gpu-service/src/hugging_voice_service/runtimes/llama_cpp_chat.py:149-185 | equals one push of the specification |
| `ModelStream.TextIsVisiblePrefix` | services/gpu-service/src/hugging_voice_service/runtimes/llama_cpp_chat.py:449-484 | the emitted texts are the visible part of all content before a tool call appeared or the stream failed |
| `ModelStream.SpokenTextSurvives` | services/gpu-service/src/hugging_voice_service/runtimes/llama_cpp_chat.py:452-464 | once text was emitted a bad call fragment does not fail the stream |
| `ModelStream.TextBeforeCall` | services/gpu-service/src/hugging_voice_service/runtimes/llama_cpp_chat.py:485-508 | all text precedes the call, of which there is at most one; with text emitted only a missing required call still fails |
| `ModelStream.OneCall` | services/gpu-service/src/hugging_voice_service/runtimes/llama_cpp_chat.py:200-236 | accepted fragments have one index and one id, and their names and arguments are joined in order within the limit |
| `ModelStream.CallIsAccumulated` | services/gpu-service/src/hugging_voice_service/runtimes/llama_cpp_chat.py:449-464 | after any deltas the call is what all fragments spell together while they were valid, and given up exactly when one was not |
| `ModelStream.BadCallFails` | services/gpu-service/src/hugging_voice_service/runtimes/llama_cpp_chat.py:449-464 | before any text an invalid fragment fails the stream |
| `ModelStream.CallIsEmitted` | services/gpu-service/src/hugging_voice_service/runtimes/llama_cpp_chat.py:485-508 | the call follows the texts exactly when its fragments were valid and it passes validation; otherwise only the texts are emitted, and the stream fails exactly when it has said nothing and its call is refused, or when a required call did not appear |
| `ModelStream.ToolCallAccumulator.Push` | services/gpu-service/src/hugging_voice_service/runtimes/llama_cpp_chat.py:200-236 | equals the specification, also for what a refused fragment leaves behind |
| `ModelStream.StreamResponse` | services/gpu-service/src/hugging_voice_service/runtimes/llama_cpp_chat.py:396-508 | the loop over the deltas and its end equal the specification |
| `Reframing.StreamFrames` | services/gpu-service/src/hugging_voice_service/runtimes/qwen_tts.py:260-281 | whatever the chunks: all frames are 960 bytes and a prefix of the frames of the audio; they are all of them unless the flag was up; a bad item raises after every complete frame was sent |
| `Reframing.EmitWhole` | services/gpu-service/src/hugging_voice_service/runtimes/qwen_tts.py:274-278 | adds exactly the complete frames at hand to those sent, or stops at the flag with what is added so far |
| `Reframing.EmitLast` | services/gpu-service/src/hugging_voice_service/runtimes/qwen_tts.py:279-281 | emits what is left, padded, unless the flag is up |
| `Reframing.FramesMeetSpecification` | services/gpu-service/src/hugging_voice_service/runtimes/qwen_tts.py:451-473 | the frames spell the audio followed by fewer than 960 zeros, and their number is the length over 960 rounded up |
| `Reframing.FramesAreUnique` | services/gpu-service/src/hugging_voice_service/runtimes/qwen_tts.py:451-473 | no other sequence of 960-byte frames does |
| `Conversations.KeptIsLongestSuffix` | services/gpu-service/src/hugging_voice_service/conversation.py:174-186 | after every run of requests the conversation is the longest suffix of everything accepted that fits both limits |
| `Conversations.NewestStays` | services/gpu-service/src/hugging_voice_service/conversation.py:174-186 | trimming never removes the newest group |
| `Conversations.AcceptedIsNewest` | services/gpu-service/src/hugging_voice_service/conversation.py:97-127 | after any requests, an accepted message makes an entry of its role and stripped content the newest group, and an accepted exchange the pair of its call and output; any other request changes nothing |
| `Conversations.RefusalIs` | services/gpu-service/src/hugging_voice_service/conversation.py:97-133 | which request is accepted, and which refusal answers each other one |
| `Conversations.MessagesShowGroups` | services/gpu-service/src/hugging_voice_service/conversation.py:135-167 | the messages at the place of a group show its role and content, or its call with arguments followed by its output |
| `Conversations.CallIdsStayDistinct` | services/gpu-service/src/hugging_voice_service/conversation.py:105-133 | retained call ids are distinct and every output matches its call |
| `Conversations.ToolMessagesFollowCalls` | services/gpu-service/src/hugging_voice_service/conversation.py:135-167 | in the messages every tool message directly follows the call with its id, and every call is directly followed by its answer, after any trimming |
| `Conversations.Conversation.Create` | services/gpu-service/src/hugging_voice_service/conversation.py:78-85 | limits must be positive |
| `Conversations.Conversation.AppendMessage` | services/gpu-service/src/hugging_voice_service/conversation.py:97-103 | equals the specification with both refusals; an accepted message leaves an entry of its role and stripped content as the newest group; counters equal the sums |
| `Conversations.Conversation.CommitToolExchange` | services/gpu-service/src/hugging_voice_service/conversation.py:105-127 | equals the specification with its three refusals; an accepted exchange is the newest group |
| `Conversations.Conversation.AppendGroup` | services/gpu-service/src/hugging_voice_service/conversation.py:174-180 | refuses a group that cannot fit, else appends and trims |
| `Conversations.Conversation.Trim` | services/gpu-service/src/hugging_voice_service/conversation.py:182-186 | the loop reaches the longest fitting suffix |
| `Conversations.Conversation.MessageList` | services/gpu-service/src/hugging_voice_service/conversation.py:135-167 | renders all groups in order, properly paired, no more than the item limit |
| `Conversations.Conversation.Clear` | services/gpu-service/src/hugging_voice_service/conversation.py:169-172 | empties the conversation and its counters |
| `Capacity.ClaimsUntilFull` | services/gpu-service/src/hugging_voice_service/capacity.py:49-66 | any number of claims in a row obtains exactly the available slots, each once |
| `Capacity.ClaimTakesOne` | services/gpu-service/src/hugging_voice_service/capacity.py:49-66 | a claim succeeds if and only if a slot is available, and uses up one |
| `Capacity.CapacityManager.Create` | services/gpu-service/src/hugging_voice_service/capacity.py:31-37 | between 1 and 64 slots |
| `Capacity.CapacityManager.Claim` | services/gpu-service/src/hugging_voice_service/capacity.py:49-66 | claims the first idle slot, or none while draining |
| `Capacity.CapacityManager.BeginRelease` | services/gpu-service/src/hugging_voice_service/capacity.py:68-73 | an active slot becomes draining |
| `Capacity.CapacityManager.CompleteRelease` | services/gpu-service/src/hugging_voice_service/capacity.py:75-86 | the slot becomes idle, or stuck |
| `Capacity.CapacityManager.BeginServiceDrain` | services/gpu-service/src/hugging_voice_service/capacity.py:88-91 | no slot is available any more |
| `Capacity.CapacityManager.Available` | services/gpu-service/src/hugging_voice_service/capacity.py:93-105 | counts the idle slots, or none while draining |
| `Sessions.RunKeepsInv` | services/gpu-service/src/hugging_voice_service/sessions.py:142-213 | every interleaving keeps slots, sessions and the release table in agreement |
| `Sessions.SlotsAreExclusive` | services/gpu-service/src/hugging_voice_service/sessions.py:142-213 | no slot is held by two sessions that have not given theirs back |
| `Sessions.SlotReleasedOnce` | services/gpu-service/src/hugging_voice_service/sessions.py:167-213 | however often release is asked for, each slot is given back exactly once, or not yet |
| `Sessions.OldReleaseSparesOthers` | services/gpu-service/src/hugging_voice_service/sessions.py:179-213 | a release touches a slot only while its own session holds it |
| `Sessions.StuckForGood` | services/gpu-service/src/hugging_voice_service/capacity.py:75-86 | a stuck slot is never claimed or freed again |
| `Sessions.AskedIsReleased` | services/gpu-service/src/hugging_voice_service/sessions.py:167-213 | a running session asked to be released is, whatever steps come in between: until its release task has taken its six steps the next one can be taken, and then the session is closed or stuck and out of the release table |
| `Sessions.DrainDecides` | services/gpu-service/src/hugging_voice_service/sessions.py:183-208 | in every continuation of a drain: a failed one leaves the session stuck and its slot draining or stuck in its name; after a good one it is closed once its release is over, and its slot is never stuck in its name |
| `Sessions.GivenBack` | services/gpu-service/src/hugging_voice_service/capacity.py:75-86 | giving a slot back leaves exactly this slot idle, with nobody holding it |
| `Sessions.ClaimsWithoutReleases` | services/gpu-service/src/hugging_voice_service/capacity.py:49-66 | while nothing is given back exactly the available number of sessions is admitted |
| `Sessions.DrainAdmitsNobody` | services/gpu-service/src/hugging_voice_service/capacity.py:49-66 | once the service drains no session is admitted, whatever is given back |
| `Sessions.SessionRegistry.Create` | services/gpu-service/src/hugging_voice_service/sessions.py:142-151 | a session without a slot is turned away; keeps the invariant of slots, sessions and release table |
| `Sessions.SessionRegistry.VadFailed` | services/gpu-service/src/hugging_voice_service/sessions.py:152-156 | a session whose detector failed gives its slot back; keeps the invariant of slots, sessions and release table |
| `Sessions.SessionRegistry.Register` | services/gpu-service/src/hugging_voice_service/sessions.py:157-161 | the session becomes known; keeps the invariant of slots, sessions and release table |
| `Sessions.SessionRegistry.Release` | services/gpu-service/src/hugging_voice_service/sessions.py:167-177 | answers a finished release, joins one under way, or starts the one release; keeps the invariant of slots, sessions and release table |
| `Sessions.SessionRegistry.MarkDraining` | services/gpu-service/src/hugging_voice_service/sessions.py:179-181 | equals the step; keeps the invariant of slots, sessions and release table |
| `Sessions.SessionRegistry.BeginDrain` | services/gpu-service/src/hugging_voice_service/sessions.py:182-182 | equals the step; keeps the invariant of slots, sessions and release table |
| `Sessions.SessionRegistry.EndDrain` | services/gpu-service/src/hugging_voice_service/sessions.py:183-198 | equals the step: a timeout or an error leaves the session stuck; keeps the invariant of slots, sessions and release table |
| `Sessions.SessionRegistry.FreeSlot` | services/gpu-service/src/hugging_voice_service/sessions.py:199-199 | equals the step; keeps the invariant of slots, sessions and release table |
| `Sessions.SessionRegistry.CloseSession` | services/gpu-service/src/hugging_voice_service/sessions.py:200-208 | equals the step; keeps the invariant of slots, sessions and release table |
| `Sessions.SessionRegistry.ForgetTask` | services/gpu-service/src/hugging_voice_service/sessions.py:209-213 | the release task leaves the table; keeps the invariant of slots, sessions and release table |
| `Sessions.SessionRegistry.BeginServiceDrain` | services/gpu-service/src/hugging_voice_service/capacity.py:88-91 | no slot is available any more; keeps the invariant |
| `RoundRobin.EachOnce` | services/gpu-service/src/hugging_voice_service/schedulers/stt.py:176-183 | as many choices in a row as there are sessions serve each once |
| `RoundRobin.NextInOrder` | services/gpu-service/src/hugging_voice_service/schedulers/stt.py:176-183 | the next larger id, or the smallest when there is none or the last choice is gone |
| `WaitingLine.FirstComeFirstServed` | services/gpu-service/src/hugging_voice_service/schedulers/turn.py:62-82 | over any joins, services and withdrawals: all that waited or joined, without what was withdrawn while waiting, is what was served followed by what still waits, in order |
| `WaitingLine.WithoutQuits` | services/gpu-service/src/hugging_voice_service/schedulers/turn.py:74-78 | taking a job out of a queue withdraws exactly it |
| `RoundRobin.TotalPut` | services/gpu-service/src/hugging_voice_service/schedulers/turn.py:173-174 | changing the queue of one session changes the number of queued jobs by the difference of its lengths |
| `TurnScheduling.RunKeepsValid` | services/gpu-service/src/hugging_voice_service/schedulers/turn.py:56-157 | in every run a queued job has a live worker, no queue is empty and the bound holds |
| `TurnScheduling.WorkNeverWaits` | services/gpu-service/src/hugging_voice_service/schedulers/turn.py:116-126 | with work queued the worker is predicting or its next look takes a job |
| `TurnScheduling.OldestFirst` | services/gpu-service/src/hugging_voice_service/schedulers/turn.py:159-171 | a dispatch takes the oldest job of its session and nothing else |
| `TurnScheduling.StepMoves` | services/gpu-service/src/hugging_voice_service/schedulers/turn.py:56-126 | what each step does to the waiting jobs of each session: an accepted job goes to the end, a dispatch takes the head, a cancelled submitter leaves, a cancelled session or the end of the service clears them; nothing else does |
| `TurnScheduling.FirstComeFirstServed` | services/gpu-service/src/hugging_voice_service/schedulers/turn.py:56-171 | in every run the accepted jobs of a session, without those withdrawn while they waited, are those the classifier got followed by those that wait, in the order of submission |
| `TurnScheduling.RoundServesEach` | services/gpu-service/src/hugging_voice_service/schedulers/turn.py:159-171 | while the backlogged sessions stay the same, every round of dispatches serves each exactly once |
| `TurnScheduling.ClosedForGood` | services/gpu-service/src/hugging_voice_service/schedulers/turn.py:102-111 | a closed scheduler takes no job in any continuation |
| `TurnScheduling.TurnScheduler.Create` | services/gpu-service/src/hugging_voice_service/schedulers/turn.py:37-46 | the bound must be positive |
| `TurnScheduling.TurnScheduler.Submit` | services/gpu-service/src/hugging_voice_service/schedulers/turn.py:56-69 | raises exactly when the scheduler is closed or as many jobs as the bound wait, changing nothing; otherwise queues the job and wakes or creates the worker |
| `TurnScheduling.TurnScheduler.Abandon` | services/gpu-service/src/hugging_voice_service/schedulers/turn.py:70-82 | removes the job of a cancelled submitter if it still waits |
| `TurnScheduling.TurnScheduler.CancelSession` | services/gpu-service/src/hugging_voice_service/schedulers/turn.py:84-91 | drops the queue of a session |
| `TurnScheduling.TurnScheduler.Close` | services/gpu-service/src/hugging_voice_service/schedulers/turn.py:102-111 | drops everything queued |
| `TurnScheduling.TurnScheduler.Look` | services/gpu-service/src/hugging_voice_service/schedulers/turn.py:116-126 | takes the next job, or ends the worker |
| `TurnScheduling.TurnScheduler.NextJob` | services/gpu-service/src/hugging_voice_service/schedulers/turn.py:159-171 | equals the round-robin choice |
| `TurnScheduling.TurnScheduler.Finish` | services/gpu-service/src/hugging_voice_service/schedulers/turn.py:152-157 | frees the classifier |
| `SttScheduling.RunKeepsValid` | services/gpu-service/src/hugging_voice_service/schedulers/stt.py:69-192 | in every run no queue is empty, at most one partial job waits per session, and the bound holds |
| `SttScheduling.FinalsFirst` | services/gpu-service/src/hugging_voice_service/schedulers/stt.py:166-174 | in every run each step that starts a partial job starts it with no final job queued, and none is admitted while one is |
| `SttScheduling.StepMoves` | services/gpu-service/src/hugging_voice_service/schedulers/stt.py:69-174 | what each step does to the waiting final and partial jobs of each session, an accepted job going to the end and a dispatch taking the head |
| `SttScheduling.FirstComeFirstServed` | services/gpu-service/src/hugging_voice_service/schedulers/stt.py:69-192 | in every run the accepted jobs of one kind and session, without those cancelled while they waited, are those the recognizer got followed by those that wait, in the order of submission |
| `SttScheduling.RoundServesEach` | services/gpu-service/src/hugging_voice_service/schedulers/stt.py:166-183 | for final jobs and for partial ones: while the sessions with queued jobs of the kind stay the same, every round of dispatches serves each exactly once |
| `SttScheduling.WorkNeverWaits` | services/gpu-service/src/hugging_voice_service/schedulers/stt.py:131-164 | with work queued a job can be taken, at once or when the running one has finished |
| `SttScheduling.ClosedForGood` | services/gpu-service/src/hugging_voice_service/schedulers/stt.py:104-113 | a closed scheduler takes no job in any continuation |
| `SttScheduling.STTScheduler.SubmitFinal` | services/gpu-service/src/hugging_voice_service/schedulers/stt.py:119-128 | raises exactly when the scheduler is closed or as many final and partial jobs as the bound wait, changing nothing; otherwise queues the job |
| `SttScheduling.STTScheduler.SubmitPartial` | services/gpu-service/src/hugging_voice_service/schedulers/stt.py:69-83 | admitted exactly when open and idle, below the bound, without any final job and without another partial of the session |
| `SttScheduling.STTScheduler.CancelSession` | services/gpu-service/src/hugging_voice_service/schedulers/stt.py:85-92 | drops both queues of a session |
| `SttScheduling.STTScheduler.Close` | services/gpu-service/src/hugging_voice_service/schedulers/stt.py:104-113 | drops everything queued |
| `SttScheduling.STTScheduler.Take` | services/gpu-service/src/hugging_voice_service/schedulers/stt.py:166-174 | equals the dispatch step |
| `SttScheduling.STTScheduler.Finish` | services/gpu-service/src/hugging_voice_service/schedulers/stt.py:157-164 | frees the recognizer |

## Left out

- VoicePipelines.VoicePipeline.StartResponse: the prefix prefill may suspend the first response; it is taken as already scheduled. A response deferred behind a filler may start at any later time, and a deferred call is whatever call its start names, not only one that a filler put off.
- VoicePipelines.VoicePipeline.CreateConversationItem: `NotKept` stands for every reason of the conversation; this refusal, an active response and a foreign response id end the session in the source, while here it goes on unchanged.
- VoicePipelines.VoicePipeline.SpeechStarted: with a cancellation under way the event follows as a notice of its own once the cancellation is over.
- The reason and the token usage that a done event carries besides its status.
- The message of the assistant that a spoken response adds to the conversation; whether the conversation keeps it is a free choice of the step. What speech synthesis makes of a text.
- Contexts of responses are values in a sequence, not shared objects; ids of turns, generations, responses and items are numbers, fresh by counting.
- After an overflow of the outbound queue the session ends; what a handler had already changed is not described.
- The opening of a cancellation is one step, because the lock of the synthesis pool is never held across a suspension.
- Session drain and shutdown of the pipeline, and liveness of responses.
- Transport.WebSocketTransport.Start: accepting the socket, and the waits inside closing.
- Client.RealtimeSession.HandleResponseEvent: the error reported to the agent, without ending the trace, when a completed response had no audio; the capacity of the text and audio channels; a send on a closed channel is a fault.
- Client networking, reconnection, replay, options, authentication and configuration.
- TtsScheduling.TtsScheduler.CancelGeneration: a caller of `synthesize` that is itself cancelled leaves its job queued; only the job is modelled, not the future.
- TtsScheduling.TtsScheduler.StartJob: synthesis itself and its errors; a worker may complete at any time.
- TurnFrontEnds.TurnFrontEnd.AppendAudio: the sequence check of input messages, a disabled detector, and a change of detector settings during a session.
- TurnFrontEnds.TurnFrontEnd.CompleteTurn: partial transcription is off, as by default, and the queue of completed turns is unbounded.
- TurnFrontEnds.TurnFrontEnd.OnFallback: the wait for a running speech candidate is part of when the timer fires, which is free.
- The classifier task of a voided candidate may still deliver in the model; in the source it is cancelled, which allows less.
- `SessionVAD.flush` and `configure`, and the check that the network answers with a probability, which is its type here.
- TextSegmenter.Configure: arguments that are not integers.
- ThinkFilter.ChunkingIsIrrelevant: lower case maps single characters, so it keeps lengths; a few Unicode letters do not.
- ModelStream.StreamResponse: HTTP, server-sent event framing, JSON and usage records; the validation of the finished call is an oracle.
- Reframing.StreamFrames: the cancellation flag is monotone, which `Cancellation.NeverCurrentAgain` justifies; samples and tensors are bytes.
- Conversations.Conversation.AppendMessage: item ids and correlations of plain messages, which nothing reads; stripping whitespace is a parameter.
- Sessions.SessionRegistry.Create: session ids are unique, as the service makes them, and are numbers.
- Cancellation of the release task itself, which only the end of the process causes.
- The futures of the turn and transcription schedulers, and staleness checks around the model calls.
- Telemetry, logging, wall-clock time and metrics.
