/**
 The receiving end of a response trace: the LiveKit plugin's realtime session
 (livekit/plugins/hugging_voice/realtime.py).

 The client acts on server events and may at any time drop the response it is
 playing (`interrupt`). A fault ends or restarts the session.
 */
module Client {
  import opened Options
  import opened Wire

  datatype Fault =
    | OverlappingResponses
    | AudioSequenceConflict
    | FrameNotTwentyMs
    | InvalidCallResponse
    | MissingFunctionCall
    | ChannelClosed  // a delta for a stream that was already closed

  datatype Response = Response(
    generation: nat,
    nextSequence: nat,
    sawText: bool,
    sawAudio: bool,
    messageStarted: bool,
    pendingCall: bool,
    textClosed: bool,
    audioClosed: bool)

  type Session = Option<Response>

  predicate Matches(s: Session, e: Event) {
    s.Some? && About(e, s.value.generation)
  }

  function Receive(s: Session, e: Event): Result<Session, Fault> {
    if e.Notice? then
      Ok(s)
    else if e.Created? then
      if s.Some? then Err(OverlappingResponses)
      else Ok(Some(Response(e.generation, 0, false, false, false, false, false, false)))
    else if !Matches(s, e) then
      Ok(s)
    else
      var r := s.value;
      match e
      case TextDelta(_, _) =>
        if r.textClosed then Err(ChannelClosed) else Ok(Some(r.(messageStarted := true, sawText := true)))
      case TextDone(_, _) => Ok(Some(r.(textClosed := true)))
      case AudioDelta(_, n, frame) =>
        if n != r.nextSequence then Err(AudioSequenceConflict)
        else if |frame| != FRAME_BYTES then Err(FrameNotTwentyMs)
        else if r.audioClosed then Err(ChannelClosed)
        else Ok(Some(r.(nextSequence := n + 1, messageStarted := true, sawAudio := true)))
      case AudioDone(_) => Ok(Some(r.(audioClosed := true)))
      case CallDone(_, _) =>
        if r.pendingCall || r.sawText || r.sawAudio then Err(InvalidCallResponse)
        else Ok(Some(r.(pendingCall := true)))
      case Done(_, ending) =>
        if ending.ToolCalled? && (!r.pendingCall || r.messageStarted) then Err(MissingFunctionCall) else Ok(None)
  }

  /** What happens at the client: an event arrives, or the agent interrupts locally. */
  datatype Action = Arrives(e: Event) | Interrupt

  function Act(s: Session, a: Action): Result<Session, Fault> {
    if a.Interrupt? then Ok(None) else Receive(s, a.e)
  }

  function Run(actions: seq<Action>): Result<Session, Fault> {
    if actions == [] then Ok(None)
    else
      var before := Run(actions[..|actions| - 1]);
      if before.Err? then before else Act(before.value, actions[|actions| - 1])
  }

  function Arrived(actions: seq<Action>): seq<Event> {
    if actions == [] then []
    else
      var a := actions[|actions| - 1];
      var before := Arrived(actions[..|actions| - 1]);
      if a.Arrives? then before + [a.e] else before
  }

  /** Any client, however it interrupts, that has seen no more than `trace` is free of faults. */
  ghost predicate Accepts(trace: seq<Event>) {
    forall actions :: Arrived(actions) <= trace ==> Run(actions).Ok?
  }

  /** How a client and the grammar describe the same open response. */
  predicate Agrees(s: Session, g: Grammar) {
    s.Some? ==>
      && g.Open?
      && s.value.generation == g.generation
      && s.value.nextSequence == g.next
      && s.value.sawText == (g.text != "")
      && s.value.sawAudio == (g.next > 0)
      && s.value.messageStarted == (s.value.sawText || s.value.sawAudio)
      && s.value.pendingCall == g.called
      && (g.called ==> g.text == "" && g.next == 0)
      && s.value.textClosed == g.textDone
      && s.value.audioClosed == g.audioDone
  }

  lemma AgreesNext(s: Session, g: Grammar, e: Event)
    requires Agrees(s, g) && Next(g, e).Some?
    ensures Receive(s, e).Ok? && Agrees(Receive(s, e).value, Next(g, e).value)
  {
  }

  lemma {:induction false} GrammarDrivesClient(actions: seq<Action>)
    requires WellFormed(Arrived(actions))
    ensures Run(actions).Ok? && Agrees(Run(actions).value, Parse(Arrived(actions)).value)
  {
    if actions == [] {
    } else {
      var front := actions[..|actions| - 1];
      var a := actions[|actions| - 1];
      if a.Arrives? {
        assert Arrived(actions)[..|Arrived(front)|] == Arrived(front);
        ParsePrefix(Arrived(actions), |Arrived(front)|);
        ParseAppend(Arrived(front), a.e);
      }
      GrammarDrivesClient(front);
      if a.Arrives? {
        AgreesNext(Run(front).value, Parse(Arrived(front)).value, a.e);
      }
    }
  }

  /** The grammar is sufficient: no client can fault on a well-formed trace. */
  lemma WellFormedIsAccepted(trace: seq<Event>)
    requires WellFormed(trace)
    ensures Accepts(trace)
  {
    forall actions | Arrived(actions) <= trace
      ensures Run(actions).Ok?
    {
      assert Arrived(actions) == trace[..|Arrived(actions)|];
      ParsePrefix(trace, |Arrived(actions)|);
      GrammarDrivesClient(actions);
    }
  }

  // ---- Overlap is fatal ----

  /** The response that a trace leaves open, judged by created and done events alone. */
  function OpenResponse(trace: seq<Event>): Option<nat> {
    if trace == [] then None
    else
      var before := OpenResponse(trace[..|trace| - 1]);
      match trace[|trace| - 1]
      case Created(g) => Some(g)
      case Done(g, _) => if before == Some(g) then None else before
      case _ => before
  }

  /** Some response is created while another one is open. */
  predicate Overlaps(trace: seq<Event>) {
    trace != []
    && var front := trace[..|trace| - 1];
       Overlaps(front) || (trace[|trace| - 1].Created? && OpenResponse(front).Some?)
  }

  function AllArrive(trace: seq<Event>): seq<Action> {
    if trace == [] then [] else AllArrive(trace[..|trace| - 1]) + [Arrives(trace[|trace| - 1])]
  }

  lemma AllArriveSnoc(front: seq<Event>, e: Event)
    ensures AllArrive(front + [e]) == AllArrive(front) + [Arrives(e)]
  {
  }

  lemma {:induction false} AllArrived(trace: seq<Event>)
    ensures Arrived(AllArrive(trace)) == trace
  {
    if trace == [] {
    } else {
      var front, e := trace[..|trace| - 1], trace[|trace| - 1];
      AllArrived(front);
      assert trace == front + [e];
      AllArriveSnoc(front, e);
    }
  }

  /** What a client without faults has open is what the trace has open. */
  predicate SameOpen(trace: seq<Event>, s: Session) {
    OpenResponse(trace) == if s.None? then None else Some(s.value.generation)
  }

  lemma ReceiveSameOpen(front: seq<Event>, s: Session, e: Event)
    requires SameOpen(front, s) && Receive(s, e).Ok?
    ensures SameOpen(front + [e], Receive(s, e).value)
  {
    assert (front + [e])[..|front|] == front;
  }

  lemma {:induction false} AllArriveFacts(trace: seq<Event>)
    ensures Run(AllArrive(trace)).Ok? ==> SameOpen(trace, Run(AllArrive(trace)).value)
  {
    if trace == [] {
    } else {
      var front, e := trace[..|trace| - 1], trace[|trace| - 1];
      AllArriveFacts(front);
      assert trace == front + [e];
      AllArriveSnoc(front, e);
      var all := AllArrive(trace);
      assert all[..|all| - 1] == AllArrive(front);
      if Run(AllArrive(trace)).Ok? {
        ReceiveSameOpen(front, Run(AllArrive(front)).value, e);
      }
    }
  }

  /** A client that never interrupts faults on every overlapping trace. */
  lemma {:induction false} OverlapFaults(trace: seq<Event>)
    requires Overlaps(trace)
    ensures Run(AllArrive(trace)).Err?
  {
    var front, all := trace[..|trace| - 1], AllArrive(trace);
    assert all[..|all| - 1] == AllArrive(front);
    if Overlaps(front) {
      OverlapFaults(front);
    } else {
      AllArriveFacts(front);
    }
  }

  lemma OverlapIsRejected(trace: seq<Event>)
    requires Overlaps(trace)
    ensures !Accepts(trace)
  {
    OverlapFaults(trace);
    AllArrived(trace);
  }

  lemma OverlapSnoc(trace: seq<Event>, e: Event)
    ensures OpenResponse(trace + [e]) ==
            if e.Created? then Some(e.generation)
            else if e.Done? && OpenResponse(trace) == Some(e.generation) then None
            else OpenResponse(trace)
    ensures Overlaps(trace + [e]) == (Overlaps(trace) || (e.Created? && OpenResponse(trace).Some?))
  {
    assert (trace + [e])[..|trace|] == trace;
  }

  /** Audio plays no part in whether responses overlap. */
  lemma {:induction false} PurgeKeepsOverlap(sent: seq<Event>, queue: seq<Event>, generation: nat)
    ensures OpenResponse(sent + Purge(queue, generation)) == OpenResponse(sent + queue)
    ensures Overlaps(sent + Purge(queue, generation)) == Overlaps(sent + queue)
  {
    if queue == [] {
    } else {
      var front, e := queue[..|queue| - 1], queue[|queue| - 1];
      PurgeKeepsOverlap(sent, front, generation);
      assert sent + queue == (sent + front) + [e];
      OverlapSnoc(sent + front, e);
      if !AudioOf(e, generation) {
        assert sent + Purge(queue, generation) == (sent + Purge(front, generation)) + [e];
        OverlapSnoc(sent + Purge(front, generation), e);
      }
    }
  }

  lemma {:induction false} OverlapStays(trace: seq<Event>, more: seq<Event>)
    requires Overlaps(trace) && trace <= more
    ensures Overlaps(more)
  {
    if |more| > |trace| {
      OverlapStays(trace, more[..|more| - 1]);
    } else {
      assert more == trace;
    }
  }

  lemma {:induction false} ParsedOpen(trace: seq<Event>)
    requires WellFormed(trace)
    ensures OpenResponse(trace) ==
            if Parse(trace).value.Open? then Some(Parse(trace).value.generation) else None
  {
    if trace == [] {
    } else {
      ParsedOpen(trace[..|trace| - 1]);
    }
  }

  // ---- Exactly what the acceptor refuses ----

  /** The events since the last response was created. */
  function Latest(trace: seq<Event>): seq<Event> {
    if trace == [] then []
    else
      var e := trace[|trace| - 1];
      if e.Created? then [e] else Latest(trace[..|trace| - 1]) + [e]
  }

  /** How often a kind of event about a response occurred since it was created. */
  function Seen(trace: seq<Event>, generation: nat, kind: EventKind): nat {
    Count(Latest(trace), generation, kind)
  }

  /** The fault that an event causes, judged by the trace before it alone. */
  function Violation(trace: seq<Event>, e: Event): Option<Fault> {
    if e.Created? then (if OpenResponse(trace).Some? then Some(OverlappingResponses) else None)
    else if e.Notice? || OpenResponse(trace) != Some(e.generation) then None
    else
      var g := e.generation;
      match e
      case TextDelta(_, _) => if Seen(trace, g, IsTextDone) > 0 then Some(ChannelClosed) else None
      case AudioDelta(_, n, frame) =>
        if n != Seen(trace, g, IsAudioDelta) then Some(AudioSequenceConflict)
        else if |frame| != 960 then Some(FrameNotTwentyMs)
        else if Seen(trace, g, IsAudioDone) > 0 then Some(ChannelClosed)
        else None
      case CallDone(_, _) =>
        if Seen(trace, g, IsCallDone) + Seen(trace, g, IsTextDelta) + Seen(trace, g, IsAudioDelta) > 0
        then Some(InvalidCallResponse) else None
      case Done(_, ending) =>
        if ending.ToolCalled? && (Seen(trace, g, IsCallDone) == 0
                              || Seen(trace, g, IsTextDelta) + Seen(trace, g, IsAudioDelta) > 0)
        then Some(MissingFunctionCall) else None
      case _ => None
  }

  /** The open response of a client that never interrupts, told by the trace. */
  predicate Tells(trace: seq<Event>, s: Session) {
    && SameOpen(trace, s)
    && (s.Some? ==>
          var r, g := s.value, s.value.generation;
          && r.nextSequence == Seen(trace, g, IsAudioDelta)
          && (r.sawText <==> Seen(trace, g, IsTextDelta) > 0)
          && (r.sawAudio <==> Seen(trace, g, IsAudioDelta) > 0)
          && (r.messageStarted <==> r.sawText || r.sawAudio)
          && (r.pendingCall <==> Seen(trace, g, IsCallDone) > 0)
          && (r.textClosed <==> Seen(trace, g, IsTextDone) > 0)
          && (r.audioClosed <==> Seen(trace, g, IsAudioDone) > 0))
  }

  lemma SeenSnoc(trace: seq<Event>, e: Event, g: nat, kind: EventKind)
    ensures Seen(trace + [e], g, kind) ==
            if e.Created? then (if e.generation == g && kind == IsCreated then 1 else 0)
            else Seen(trace, g, kind) + (if About(e, g) && KindOf(e) == kind then 1 else 0)
  {
    var w := Latest(trace);
    assert (trace + [e])[..|trace|] == trace;
    if e.Created? {
      assert Latest(trace + [e]) == [e] && [e][..0] == [];
      assert Count([e][..0], g, kind) == 0;
      assert Count([e], g, kind) == if About(e, g) && KindOf(e) == kind then 1 else 0;
    } else {
      assert (w + [e])[..|w|] == w;
    }
  }

  lemma ReceiveTells(trace: seq<Event>, s: Session, e: Event)
    requires Tells(trace, s)
    ensures Receive(s, e).Err? <==> Violation(trace, e).Some?
    ensures Receive(s, e).Err? ==> Violation(trace, e) == Some(Receive(s, e).error)
    ensures Receive(s, e).Ok? ==> Tells(trace + [e], Receive(s, e).value)
  {
    if Receive(s, e).Ok? {
      ReceiveSameOpen(trace, s, e);
      var s' := Receive(s, e).value;
      if s'.Some? {
        var g := s'.value.generation;
        SeenSnoc(trace, e, g, IsAudioDelta);
        SeenSnoc(trace, e, g, IsTextDelta);
        SeenSnoc(trace, e, g, IsCallDone);
        SeenSnoc(trace, e, g, IsTextDone);
        SeenSnoc(trace, e, g, IsAudioDone);
      }
    }
  }

  /** The first violation of a trace, in order. */
  function FirstViolation(trace: seq<Event>): Option<Fault> {
    if trace == [] then None
    else
      var front := trace[..|trace| - 1];
      if FirstViolation(front).Some? then FirstViolation(front) else Violation(front, trace[|trace| - 1])
  }

  /** A client that never interrupts refuses a trace exactly at its first violation, for that reason. */
  lemma {:induction false} RefusesExactly(trace: seq<Event>)
    ensures Run(AllArrive(trace)).Err? <==> FirstViolation(trace).Some?
    ensures Run(AllArrive(trace)).Err? ==> FirstViolation(trace) == Some(Run(AllArrive(trace)).error)
    ensures Run(AllArrive(trace)).Ok? ==> Tells(trace, Run(AllArrive(trace)).value)
  {
    if trace == [] {
    } else {
      var front, e := trace[..|trace| - 1], trace[|trace| - 1];
      RefusesExactly(front);
      assert trace == front + [e];
      AllArriveSnoc(front, e);
      var all := AllArrive(trace);
      assert all[..|all| - 1] == AllArrive(front);
      if Run(AllArrive(front)).Ok? {
        ReceiveTells(front, Run(AllArrive(front)).value, e);
      }
    }
  }

  const OUTBOUND_QUEUE_SIZE: nat := 128

  datatype Command = ResponseCancel(generation: nat) | OtherCommand

  datatype InterruptError = SessionClosed | CommandQueueFull

  class RealtimeSession {
    var response: Session
    var outbound: seq<Command> // commands on their way to the server
    var closing: bool

    constructor ()
      ensures response == None && outbound == [] && !closing
    {
      response, outbound, closing := None, [], false;
    }

    method HandleResponseEvent(e: Event) returns (fault: Option<Fault>)
      modifies this`response
      ensures fault.None? <==> Receive(old(response), e).Ok?
      ensures fault.Some? ==> Receive(old(response), e) == Err(fault.value)
      ensures fault.None? ==> response == Receive(old(response), e).value
    {
      fault := None;
      match e {
        case Notice =>
        case Created(generation) =>
          fault := ResponseCreated(generation);
        case TextDelta(generation, _) =>
          if MatchingResponse(generation) {
            if response.value.textClosed {
              return Some(ChannelClosed);
            }
            StartMessage();
            response := Some(response.value.(sawText := true));
          }
        case TextDone(generation, _) =>
          if MatchingResponse(generation) {
            response := Some(response.value.(textClosed := true));
          }
        case AudioDelta(generation, sequence, frame) =>
          if MatchingResponse(generation) {
            if sequence != response.value.nextSequence {
              return Some(AudioSequenceConflict);
            }
            response := Some(response.value.(nextSequence := sequence + 1));
            StartMessage();
            if |frame| != FRAME_BYTES {
              return Some(FrameNotTwentyMs);
            }
            response := Some(response.value.(sawAudio := true));
            if response.value.audioClosed {
              return Some(ChannelClosed);
            }
          }
        case AudioDone(generation) =>
          if MatchingResponse(generation) {
            response := Some(response.value.(audioClosed := true));
          }
        case CallDone(generation, _) =>
          if MatchingResponse(generation) {
            if response.value.pendingCall || response.value.sawText || response.value.sawAudio {
              return Some(InvalidCallResponse);
            }
            response := Some(response.value.(pendingCall := true));
          }
        case Done(generation, ending) =>
          if MatchingResponse(generation) {
            if ending.ToolCalled? && (!response.value.pendingCall || response.value.messageStarted) {
              return Some(MissingFunctionCall);
            }
            response := None;
          }
      }
    }

    /** Drops the open response and asks the server to cancel it; without one nothing happens. */
    method Interrupt() returns (r: Outcome<InterruptError>)
      modifies this`response, this`outbound
      ensures old(response).None? ==> r == Pass
      ensures old(response).Some? ==>
                r == if closing then Raised(SessionClosed)
                     else if old(|outbound|) >= OUTBOUND_QUEUE_SIZE then Raised(CommandQueueFull) else Pass
      ensures r.Pass? ==> Act(old(response), Action.Interrupt) == Ok(response)
      ensures r.Pass? && old(response).Some? ==>
                outbound == old(outbound) + [ResponseCancel(old(response).value.generation)]
      ensures r.Raised? || old(response).None? ==> response == old(response) && outbound == old(outbound)
    {
      if response.None? {
        return Pass;
      }
      if closing {
        return Raised(SessionClosed);
      }
      if |outbound| >= OUTBOUND_QUEUE_SIZE {
        return Raised(CommandQueueFull);
      }
      outbound := outbound + [ResponseCancel(response.value.generation)];
      response := None;
      r := Pass;
    }

    predicate MatchingResponse(generation: nat)
      reads this
    {
      response.Some? && response.value.generation == generation
    }

    method ResponseCreated(generation: nat) returns (fault: Option<Fault>)
      modifies this`response
      ensures fault == if old(response).Some? then Some(OverlappingResponses) else None
      ensures response == if old(response).Some? then old(response)
                          else Some(Response(generation, 0, false, false, false, false, false, false))
    {
      if response.Some? {
        return Some(OverlappingResponses);
      }
      response := Some(Response(generation, 0, false, false, false, false, false, false));
      fault := None;
    }

    method StartMessage()
      requires response.Some?
      modifies this`response
      ensures response == Some(old(response).value.(messageStarted := true))
    {
      if response.value.messageStarted {
        return;
      }
      response := Some(response.value.(messageStarted := true));
    }
  }
}
