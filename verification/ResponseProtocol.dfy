/**
 The response and cancellation protocol of one session as a state machine
 (pipeline.py, `_start_response` to `_finalize_response`, and tool-call commit).

 One step is one handler of the asyncio program up to its next real suspension.
 Runners, TTS workers, the sender loop and the event consumer interleave freely:
 a run is any sequence of enabled steps. The consumer takes the next client event only
 when the handler of the last one is done; spoken fillers, cancellations and items come
 from it, while replies also come from the turn worker and from deferred tasks. Model
 output, TTS outcomes and the moments at which responses are requested or cancelled are
 left to the run.

 Generations are numbered in the order in which they start; the response and item
 identifiers of a generation are that number too.
 */
module ResponseProtocol {
  import opened Options
  import opened Wire
  import C = Cancellation
  import T = Transport

  datatype Kind = ModelReply | DirectSpeak | DeferredCall

  datatype Phase =
    | NotStarted     // the task was created but has not run
    | Streaming      // waiting for model output (or for room in the segment queue)
    | AwaitTts       // waiting for the speech task
    | CancelCleanup  // cancelled, waiting for the speech task to end
    | FailCleanup    // failed, waiting for the speech task to end
    | Exited

  datatype Context = Context(
    kind: Kind,
    token: C.Token,
    speech: string,
    call: Option<Call>,
    text: string,
    audioSequence: nat,
    speaking: bool,  // the speech task exists
    textDone: bool,
    audioDone: bool,
    finalized: bool,
    cancelRequested: bool,
    phase: Phase)

  /** The correlations that a tool result must repeat. */
  datatype Origin = Origin(turnId: nat, revision: int, generation: nat, responseId: nat)

  datatype FunctionCall = FunctionCall(itemId: nat, call: Call, origin: Origin)

  datatype CallOutput = CallOutput(itemId: nat, callId: nat, name: nat, output: string, isError: bool, origin: Origin)

  datatype Item = Message(content: string) | CallItem(call: FunctionCall) | OutputItem(output: CallOutput)

  /** Why a client event is turned down; `Deferred` is none, but puts the response off. */
  datatype Refusal =
    | ResponseActive
    | Deferred
    | SessionStateConflict
    | ToolCallStateConflict
    | ResponseMismatch
    | UnknownToolName
    | DuplicateToolCallOutput
    | UnknownToolCallOutput
    | StaleToolCallOutput
    | NotKept

  datatype Server = Server(
    contexts: seq<Context>,
    response: Option<nat>,
    cancellation: C.State,
    outbound: T.Outbound,
    cancelling: set<nat>,     // cancellations that wait for their runner to end
    everCancelled: set<nat>,  // history: every generation that was ever cancelled
    turnId: Option<nat>,
    turns: nat,               // turn ids handed out so far
    revision: int,
    pending: Option<FunctionCall>,
    tools: set<nat>,
    toolsFrozen: bool,
    replayOpen: bool,
    exchanges: seq<(FunctionCall, CallOutput)>)
  {
    /** Events were only added at the end of the outbound queue. */
    predicate Grew(s: Server) {
      && s.outbound.wire == outbound.wire && s.outbound.sending == outbound.sending
      && s.outbound.cancelled == outbound.cancelled
      && outbound.queue <= s.outbound.queue
      && s.everCancelled == everCancelled
    }

    /** The turn in force and the settings of the session stayed as they are. */
    predicate SameSetting(s: Server) {
      && s.turnId == turnId && s.turns == turns && s.revision == revision
      && s.tools == tools && s.toolsFrozen == toolsFrozen && s.replayOpen == replayOpen
    }

    /** Nothing happened to the turn or to the tool calls of the conversation. */
    predicate SameCalls(s: Server) {
      s.pending == pending && s.exchanges == exchanges && SameSetting(s)
    }

    function With(g: nat, c: Context): (s: Server)
      requires g < |contexts|
      ensures |s.contexts| == |contexts|
    {
      this.(contexts := contexts[g := c])
    }

    function Send(e: Event): Server {
      this.(outbound := outbound.Send(e))
    }

    predicate Current(g: nat)
      requires g < |contexts|
    {
      cancellation.IsCurrent(contexts[g].token)
    }

    // ---- The methods of the pipeline that do not suspend ----

    function SendTextDone(g: nat): (s: Server)
      requires g < |contexts|
      ensures |s.contexts| == |contexts| && Grew(s) && SameCalls(s)
    {
      var c := contexts[g];
      if c.textDone then this else With(g, c.(textDone := true)).Send(TextDone(g, c.text))
    }

    function SendAudioDone(g: nat): (s: Server)
      requires g < |contexts|
      ensures |s.contexts| == |contexts| && Grew(s) && SameCalls(s)
    {
      var c := contexts[g];
      if c.audioDone then this else With(g, c.(audioDone := true)).Send(AudioDone(g))
    }

    function Finalize(g: nat, ending: Ending): (s: Server)
      requires g < |contexts|
      ensures |s.contexts| == |contexts| && Grew(s) && SameCalls(s)
    {
      var c := contexts[g];
      if c.finalized then this
      else
        With(g, c.(finalized := true)).Send(Done(g, ending))
        .(cancellation := cancellation.Finish(c.token))
    }

    /** Both stream ends, then the done event of a spoken response. */
    function EndSpeech(g: nat, ending: Ending): (s: Server)
      requires g < |contexts|
      ensures |s.contexts| == |contexts| && Grew(s) && SameCalls(s)
    {
      SendTextDone(g).SendAudioDone(g).Finalize(g, ending)
    }

    /** The `finally` block: the runner ends and the session becomes idle. */
    function Leave(g: nat): (s: Server)
      requires g < |contexts|
      ensures |s.contexts| == |contexts| && Grew(s) && SameCalls(s)
    {
      With(g, contexts[g].(phase := Exited)).(response := if response == Some(g) then None else response)
    }

    function Issued(g: nat): FunctionCall
      requires g < |contexts| && contexts[g].call.Some?
    {
      var c := contexts[g];
      FunctionCall(g, c.call.value, Origin(c.token.turnId, c.token.revision, g, g))
    }

    function EmitCall(g: nat): (s: Server)
      requires g < |contexts| && contexts[g].call.Some?
      ensures |s.contexts| == |contexts| && Grew(s)
      ensures s.exchanges == exchanges && SameSetting(s)
    {
      this.(pending := Some(Issued(g))).Send(CallDone(g, contexts[g].call.value)).Finalize(g, ToolCalled)
    }

    /** The end of both exception handlers, after the speech task is gone. */
    function EndEarly(g: nat, ending: Ending): (s: Server)
      requires g < |contexts|
      ensures |s.contexts| == |contexts| && Grew(s) && SameCalls(s)
    {
      var c := contexts[g];
      (if c.call.None? || c.speaking then EndSpeech(g, ending) else Finalize(g, ending)).Leave(g)
    }

    function EnterCancelled(g: nat): (s: Server)
      requires g < |contexts|
      ensures |s.contexts| == |contexts| && Grew(s) && SameCalls(s)
    {
      var c := contexts[g];
      if c.speaking then With(g, c.(phase := CancelCleanup)) else EndEarly(g, CutOff)
    }

    function EnterFailed(g: nat): (s: Server)
      requires g < |contexts|
      ensures |s.contexts| == |contexts| && Grew(s) && SameCalls(s)
    {
      var c := contexts[g];
      if c.speaking then With(g, c.(phase := FailCleanup)) else Send(Notice).EndEarly(g, Ending.Failed)
    }

    // ---- Steps ----

    function StartResponse(kind: Kind, speech: string, call: Option<Call>): (s': Server)
      ensures Grew(s')
    {
      if response.Some? || (!kind.DirectSpeak? && pending.Some?) then this
      else
        var g := |contexts|;
        var turn := if turnId.Some? then turnId.value else turns;
        var rev := if turnId.Some? then revision else revision + 1;
        var started := cancellation.Start(turn, rev, g);
        var context := Context(kind, started.current.value, speech, call, "", 0,
                               false, false, false, false, false, NotStarted);
        this.(toolsFrozen := toolsFrozen || !kind.DirectSpeak?,
              turnId := Some(turn),
              turns := if turnId.Some? then turns else turns + 1,
              revision := rev,
              cancellation := started,
              contexts := contexts + [context],
              response := Some(g),
              outbound := outbound.Send(Created(g)))
    }

    /** A runner executes up to its first suspension. `fits`: the segments fit the queue. */
    function RunnerBegins(g: nat, fits: bool): (s': Server)
      requires g < |contexts|
      requires contexts[g].kind.DeferredCall? ==> contexts[g].call.Some?
      ensures Grew(s') && s'.exchanges == exchanges && SameSetting(s')
    {
      var c := contexts[g];
      match c.kind
      case ModelReply => With(g, c.(phase := Streaming))
      case DirectSpeak =>
        var spoken := With(g, c.(text := c.speech)).Send(TextDelta(g, c.speech)).SendTextDone(g);
        spoken.With(g, spoken.contexts[g].(phase := if fits then AwaitTts else Streaming, speaking := fits))
      case DeferredCall =>
        if Current(g) then EmitCall(g).Leave(g) else EndEarly(g, CutOff)
    }

    function ModelText(g: nat, delta: string): (s': Server)
      requires g < |contexts|
      ensures Grew(s') && SameCalls(s')
    {
      var c := contexts[g];
      if !Current(g) then EnterCancelled(g)
      else With(g, c.(speaking := true, text := c.text + delta)).Send(TextDelta(g, delta))
    }

    function ModelCall(g: nat, call: Call): (s': Server)
      requires g < |contexts|
      ensures Grew(s') && SameCalls(s')
    {
      var c := contexts[g];
      if !Current(g) then EnterCancelled(g)
      else if c.call.Some? then EnterFailed(g)
      else With(g, c.(call := Some(call)))
    }

    function ModelEnds(g: nat): (s': Server)
      requires g < |contexts|
      ensures Grew(s') && s'.exchanges == exchanges && SameSetting(s')
    {
      var c := contexts[g];
      if c.call.Some? && c.text == "" then EmitCall(g).Leave(g)
      else if !c.speaking then EnterFailed(g)
      else
        var s := SendTextDone(g);
        s.With(g, s.contexts[g].(phase := AwaitTts))
    }

    /** The speech task returned. `kept`: the conversation accepted the spoken text. */
    function TtsFinishes(g: nat, kept: bool): (s': Server)
      requires g < |contexts|
      ensures Grew(s') && SameCalls(s')
    {
      var s := SendAudioDone(g).Finalize(g, Completed);
      if kept then s.Leave(g) else s.EnterFailed(g)
    }

    function CleanupEnds(g: nat): (s': Server)
      requires g < |contexts|
      ensures Grew(s') && SameCalls(s')
    {
      if contexts[g].phase.FailCleanup? then Send(Notice).EndEarly(g, Ending.Failed) else EndEarly(g, CutOff)
    }

    /** asyncio raises CancelledError in a runner at the point where it is suspended. */
    function CancelDelivered(g: nat): (s': Server)
      requires g < |contexts|
      ensures Grew(s') && SameCalls(s')
    {
      var c := contexts[g].(cancelRequested := false);
      var s := With(g, c);
      match c.phase
      case NotStarted => s.With(g, c.(phase := Exited))  // no `finally` has been entered
      case Streaming => s.EnterCancelled(g)
      case AwaitTts => s.EnterCancelled(g)
      case CancelCleanup => s.Leave(g)
      case FailCleanup => s.Leave(g)
      case Exited => s
    }

    /** The cancellation takes effect. */
    predicate CancelHits(generation: Option<nat>, responseId: Option<nat>) {
      && response.Some?
      && (responseId.None? || responseId == response)
      && cancellation.Hits(generation)
    }

    /** `_cancel_response` up to the wait for the runner. */
    function CancelRequested(generation: Option<nat>, responseId: Option<nat>): Server
      requires response.Some? ==> response.value < |contexts|
    {
      if !CancelHits(generation, responseId) then this
      else
        var g := response.value;
        var c := contexts[g];
        With(g, c.(cancelRequested := !c.phase.Exited?))
        .(cancellation := cancellation.Cancel(generation),
          outbound := outbound.CancelGeneration(g),
          cancelling := cancelling + {g},
          everCancelled := everCancelled + {g})
    }

    /** The rest of `_cancel_response`, once the runner has ended. */
    function CancelResumes(g: nat): (s': Server)
      requires g < |contexts|
      ensures Grew(s') && SameCalls(s')
    {
      var s := this.(cancelling := cancelling - {g});
      if contexts[g].finalized then s else s.EndSpeech(g, CutOff)
    }

    function AudioFrame(g: nat, frame: seq<byte>): (s': Server)
      requires g < |contexts|
      ensures Grew(s') && SameCalls(s')
    {
      var c := contexts[g];
      if !Current(g) then this
      else
        Send(AudioDelta(g, c.audioSequence, frame))
        .With(g, c.(audioSequence := c.audioSequence + 1))
    }

    /** Speech of the caller. A cancellation that takes effect comes before the event, which is sent once it is over. */
    function SpeechStarts(interrupt: bool): Server
      requires response.Some? ==> response.value < |contexts|
    {
      var s := this.(revision := revision + 1, turnId := Some(turns), turns := turns + 1, pending := None);
      if interrupt && CancelHits(None, None) then s.CancelRequested(None, None) else s.Send(Notice)
    }

    /** A client commits audio without detected speech: a new turn, but the pending call stays. */
    function OpensTurn(): Server {
      this.(revision := revision + 1, turnId := Some(turns), turns := turns + 1).Send(Notice)
    }

    /** The output answers the pending call, field by field. */
    predicate Answers(output: CallOutput) {
      && pending.Some?
      && output.callId == pending.value.call.callId
      && output.name == pending.value.call.name
      && output.origin == pending.value.origin
    }

    predicate ItemBlocked(item: Item)
      requires response.Some? ==> response.value < |contexts|
    {
      response.Some? && !(contexts[response.value].kind.DirectSpeak? && item.OutputItem?)
    }

    /** `kept`: the conversation accepted the item. Every rejection leaves the state alone. */
    function ItemCreated(item: Item, kept: bool): (s': Server)
      requires response.Some? ==> response.value < |contexts|
      ensures Grew(s')
    {
      if ItemBlocked(item) then this
      else
        match item
        case Message(_) => if kept then Send(Notice) else this
        case CallItem(call) =>
          if pending.Some? then (if call == pending.value then Send(Notice) else this)
          else if !replayOpen || toolsFrozen || call.call.name !in tools then this
          else this.(pending := Some(call)).Send(Notice)
        case OutputItem(output) =>
          if !Answers(output) || !kept then this
          else this.(pending := None, exchanges := exchanges + [(pending.value, output)]).Send(Notice)
    }

    // ---- Refusals ----

    /** `slotTaken`: another response is already deferred behind the spoken filler. */
    function StartRefusal(kind: Kind, slotTaken: bool): Option<Refusal>
      requires response.Some? ==> response.value < |contexts|
    {
      if response.Some? then
        if !kind.DirectSpeak? && contexts[response.value].kind.DirectSpeak? then
          Some(if slotTaken then SessionStateConflict else Deferred)
        else Some(ResponseActive)
      else if !kind.DirectSpeak? && pending.Some? then Some(ToolCallStateConflict)
      else None
    }

    /** `committed`: the conversation still holds an exchange with the output's call id. */
    function ItemRefusal(item: Item, kept: bool, committed: bool): Option<Refusal>
      requires response.Some? ==> response.value < |contexts|
    {
      if ItemBlocked(item) then Some(ToolCallStateConflict)
      else
        match item
        case Message(_) => if kept then None else Some(NotKept)
        case CallItem(call) =>
          if pending.Some? then (if call == pending.value then None else Some(ToolCallStateConflict))
          else if !replayOpen || toolsFrozen then Some(ToolCallStateConflict)
          else if call.call.name !in tools then Some(UnknownToolName)
          else None
        case OutputItem(output) =>
          if pending.None? then Some(if committed then DuplicateToolCallOutput else UnknownToolCallOutput)
          else if output.callId != pending.value.call.callId then Some(UnknownToolCallOutput)
          else if output.name != pending.value.call.name then Some(ToolCallStateConflict)
          else if output.origin != pending.value.origin then Some(StaleToolCallOutput)
          else if kept then None
          else Some(NotKept)
    }
  }

  const INITIAL := Server([], None, C.INITIAL, T.EMPTY, {}, {}, None, 0, -1, None, {}, false, true, [])

  datatype Step =
    | Start(kind: Kind, speech: string, call: Option<Call>)
    | Begin(g: nat, fits: bool)
    | Text(g: nat, delta: string)
    | ToolCall(g: nat, toolCall: Call)
    | End(g: nat)
    | Fail(g: nat)
    | SpeechDone(g: nat, kept: bool)
    | CleanedUp(g: nat)
    | Cancelled(g: nat)
    | Cancel(generation: Option<nat>, responseId: Option<nat>)
    | CancelEnds(g: nat)
    | Frame(g: nat, frame: seq<byte>)
    | Take
    | Transmitted
    | Other
    | BargeIn(interrupt: bool)
    | OpenTurn
    | ForgetTurn
    | CreateItem(item: Item, kept: bool)
    | CloseReplay
    | Configure(tools: set<nat>)

  /** A runner that may be resumed normally in one of the given phases. */
  predicate Resumable(s: Server, g: nat, phases: set<Phase>) {
    g < |s.contexts| && !s.contexts[g].cancelRequested && s.contexts[g].phase in phases
  }

  /** Client events are handled one after the other, and a cancellation is the only handler here that waits. */
  predicate ConsumerFree(s: Server) {
    s.cancelling == {}
  }

  predicate Enabled(s: Server, step: Step) {
    && (s.response.Some? ==> s.response.value < |s.contexts|)
    && match step
       case Start(kind, speech, call) =>
         (kind.DirectSpeak? ==> speech != "" && ConsumerFree(s)) && (kind.DeferredCall? <==> call.Some?)
       case Begin(g, _) =>
         Resumable(s, g, {NotStarted}) && (s.contexts[g].kind.DeferredCall? ==> s.contexts[g].call.Some?)
       case Text(g, delta) => Resumable(s, g, {Streaming}) && s.contexts[g].kind.ModelReply? && delta != ""
       case ToolCall(g, _) => Resumable(s, g, {Streaming}) && s.contexts[g].kind.ModelReply?
       case End(g) => Resumable(s, g, {Streaming}) && s.contexts[g].kind.ModelReply?
       case Fail(g) =>
         Resumable(s, g, {Streaming, AwaitTts}) && (s.contexts[g].phase.Streaming? ==> s.contexts[g].kind.ModelReply?)
       case SpeechDone(g, _) => Resumable(s, g, {AwaitTts})
       case CleanedUp(g) => Resumable(s, g, {CancelCleanup, FailCleanup})
       case Cancelled(g) => g < |s.contexts| && s.contexts[g].cancelRequested
       case Cancel(_, _) => ConsumerFree(s)
       case CancelEnds(g) => g < |s.contexts| && g in s.cancelling && s.contexts[g].phase.Exited?
       case Frame(g, frame) => g < |s.contexts| && s.contexts[g].speaking && |frame| == FRAME_BYTES
       case Take => s.outbound.sending.None? && s.outbound.queue != []
       case Transmitted => s.outbound.sending.Some?
       case Other => true
       case BargeIn(_) => ConsumerFree(s)
       case OpenTurn => ConsumerFree(s)
       case ForgetTurn => ConsumerFree(s)
       case CreateItem(_, _) => ConsumerFree(s)
       case CloseReplay => ConsumerFree(s)
       case Configure(tools) => ConsumerFree(s) && (s.toolsFrozen ==> tools == s.tools)
  }

  function Apply(s: Server, step: Step): Server
    requires Enabled(s, step)
  {
    match step
    case Start(kind, speech, call) => s.StartResponse(kind, speech, call)
    case Begin(g, fits) => s.RunnerBegins(g, fits)
    case Text(g, delta) => s.ModelText(g, delta)
    case ToolCall(g, call) => s.ModelCall(g, call)
    case End(g) => s.ModelEnds(g)
    case Fail(g) => s.EnterFailed(g)
    case SpeechDone(g, kept) => s.TtsFinishes(g, kept)
    case CleanedUp(g) => s.CleanupEnds(g)
    case Cancelled(g) => s.CancelDelivered(g)
    case Cancel(generation, responseId) => s.CancelRequested(generation, responseId)
    case CancelEnds(g) => s.CancelResumes(g)
    case Frame(g, frame) => s.AudioFrame(g, frame)
    case Take => s.(outbound := s.outbound.Take())
    case Transmitted => s.(outbound := s.outbound.Complete())
    case Other => s.Send(Notice)
    case BargeIn(interrupt) => s.SpeechStarts(interrupt)
    case OpenTurn => s.OpensTurn()
    case ForgetTurn => s.(turnId := None)
    case CreateItem(item, kept) => s.ItemCreated(item, kept)
    case CloseReplay => s.(replayOpen := false)
    case Configure(tools) => s.(tools := tools)
  }

  /** The run `steps` is possible from `s`. */
  predicate Possible(s: Server, steps: seq<Step>)
    decreases |steps|
  {
    steps != [] ==> Enabled(s, steps[0]) && Possible(Apply(s, steps[0]), steps[1..])
  }

  function Execute(s: Server, steps: seq<Step>): Server
    requires Possible(s, steps)
    decreases |steps|
  {
    if steps == [] then s else Execute(Apply(s, steps[0]), steps[1..])
  }

  /** An item is refused exactly when it changes nothing. */
  lemma RefusedIffUnchanged(s: Server, item: Item, kept: bool, committed: bool)
    requires s.response.Some? ==> s.response.value < |s.contexts|
    ensures s.ItemRefusal(item, kept, committed).Some? <==> s.ItemCreated(item, kept) == s
  {
    assert s.Send(Notice).outbound.queue == s.outbound.queue + [Notice];
  }

  /** A response is refused or deferred exactly when none is created, and a refusal changes nothing. */
  lemma StartedUnlessRefused(s: Server, kind: Kind, speech: string, call: Option<Call>, slotTaken: bool)
    requires s.response.Some? ==> s.response.value < |s.contexts|
    ensures s.StartRefusal(kind, slotTaken).Some? <==> s.StartResponse(kind, speech, call) == s
    ensures s.StartRefusal(kind, slotTaken).None? <==>
              |s.StartResponse(kind, speech, call).contexts| == |s.contexts| + 1
  {
  }

  /** When each error code answers an item. */
  lemma ItemRefusalCodes(s: Server, item: Item, kept: bool, committed: bool)
    requires s.response.Some? ==> s.response.value < |s.contexts|
    ensures var code := s.ItemRefusal(item, kept, committed);
            var free := s.response.None?
                        || (s.contexts[s.response.value].kind.DirectSpeak? && item.OutputItem?);
            var answers := item.OutputItem? && free && s.pending.Some?
                           && item.output.callId == s.pending.value.call.callId;
            var named := answers && item.output.name == s.pending.value.call.name;
            && (code == Some(UnknownToolName) <==>
                  item.CallItem? && free && s.pending.None? && s.replayOpen && !s.toolsFrozen
                  && item.call.call.name !in s.tools)
            && (code == Some(DuplicateToolCallOutput) <==> item.OutputItem? && free && s.pending.None? && committed)
            && (code == Some(UnknownToolCallOutput) <==>
                  item.OutputItem? && free && !answers && (s.pending.Some? || !committed))
            && (code == Some(StaleToolCallOutput) <==> named && item.output.origin != s.pending.value.origin)
            && (code == Some(ToolCallStateConflict) <==>
                  || !free
                  || (answers && !named)
                  || (item.CallItem? && s.pending.Some? && s.pending.value != item.call)
                  || (item.CallItem? && s.pending.None? && (!s.replayOpen || s.toolsFrozen)))
            && (code == Some(NotKept) <==>
                  free && !kept && (item.Message? || (named && item.output.origin == s.pending.value.origin)))
  {
  }

  /** When a start is refused or put off, and that a filler is refused only by an active response. */
  lemma StartRefusalCodes(s: Server, kind: Kind, slotTaken: bool)
    requires s.response.Some? ==> s.response.value < |s.contexts|
    ensures var code := s.StartRefusal(kind, slotTaken);
            var behind := s.response.Some? && s.contexts[s.response.value].kind.DirectSpeak? && !kind.DirectSpeak?;
            && (code == Some(Deferred) <==> behind && !slotTaken)
            && (code == Some(SessionStateConflict) <==> behind && slotTaken)
            && (code == Some(ResponseActive) <==> s.response.Some? && !behind)
            && (code == Some(ToolCallStateConflict) <==> s.response.None? && !kind.DirectSpeak? && s.pending.Some?)
            && (code == None <==> s.response.None? && (kind.DirectSpeak? || s.pending.None?))
  {
  }
}
