/**
 What the responses of a run say, play and call, against a record kept beside the run.

 The record notes only what the model, the synthesis and the starts of the run delivered:
 it never looks at the texts, calls or events of the server. `RunFollowsRecord`: the text
 deltas of a response, joined, are what the model said while its token was in force (or
 the text of a filler); its frames are those synthesized, up to a cut by cancellation; its
 call is the model's first one. `PendingCallIsTheModels` and `CallBecomesPending` fix the
 call that becomes pending, with the turn and revision in force at the start.
 */
module ResponseRecord {
  import opened Options
  import opened Wire
  import opened ResponseProtocol
  import opened ResponseInvariant
  import T = Transport

  // ---- The content of a trace ----

  /** The audio frames of one generation, in order. */
  function Frames(trace: seq<Event>, generation: nat): seq<seq<byte>> {
    if trace == [] then []
    else
      var e := trace[|trace| - 1];
      var before := Frames(trace[..|trace| - 1], generation);
      if AudioOf(e, generation) then before + [e.frame] else before
  }

  /** The calls sent for one generation. */
  function CallsOf(trace: seq<Event>, generation: nat): seq<Call> {
    if trace == [] then []
    else
      var e := trace[|trace| - 1];
      var before := CallsOf(trace[..|trace| - 1], generation);
      if e.CallDone? && e.generation == generation then before + [e.call] else before
  }

  /** An event without text, audio or call. */
  predicate Bare(e: Event) {
    !e.TextDelta? && !e.AudioDelta? && !e.CallDone?
  }

  predicate SameFor(a: seq<Event>, b: seq<Event>, g: nat) {
    Spoken(a, g) == Spoken(b, g) && Frames(a, g) == Frames(b, g) && CallsOf(a, g) == CallsOf(b, g)
  }

  ghost predicate SameContent(a: seq<Event>, b: seq<Event>) {
    forall g: nat :: SameFor(a, b, g)
  }

  lemma ContentSnoc(trace: seq<Event>, e: Event, g: nat)
    ensures Spoken(trace + [e], g) ==
            if e.TextDelta? && e.generation == g then Spoken(trace, g) + e.delta else Spoken(trace, g)
    ensures Frames(trace + [e], g) ==
            if AudioOf(e, g) then Frames(trace, g) + [e.frame] else Frames(trace, g)
    ensures CallsOf(trace + [e], g) ==
            if e.CallDone? && e.generation == g then CallsOf(trace, g) + [e.call] else CallsOf(trace, g)
  {
    assert (trace + [e])[..|trace|] == trace;
  }

  lemma BareSnoc(trace: seq<Event>, e: Event)
    requires Bare(e)
    ensures SameContent(trace, trace + [e])
  {
    forall g: nat
      ensures SameFor(trace, trace + [e], g)
    {
      ContentSnoc(trace, e, g);
    }
  }

  /** Purging the queued audio of one generation leaves all text, calls and other audio. */
  lemma {:induction false} ContentPurge(wire: seq<Event>, queue: seq<Event>, gen: nat, g: nat)
    ensures Spoken(wire + Purge(queue, gen), g) == Spoken(wire + queue, g)
    ensures CallsOf(wire + Purge(queue, gen), g) == CallsOf(wire + queue, g)
    ensures g != gen ==> Frames(wire + Purge(queue, gen), g) == Frames(wire + queue, g)
    ensures Frames(wire + Purge(queue, gen), g) <= Frames(wire + queue, g)
    ensures g == gen ==> Frames(wire + Purge(queue, gen), g) == Frames(wire, g)
    decreases |queue|
  {
    if queue == [] {
      assert wire + queue == wire;
    } else {
      var front, e := queue[..|queue| - 1], queue[|queue| - 1];
      ContentPurge(wire, front, gen, g);
      assert wire + queue == (wire + front) + [e];
      ContentSnoc(wire + front, e, g);
      if !AudioOf(e, gen) {
        assert wire + Purge(queue, gen) == (wire + Purge(front, gen)) + [e];
        ContentSnoc(wire + Purge(front, gen), e, g);
      }
    }
  }

  // ---- The record ----

  /** How a response began: its kind, the text of a filler, and the turn in force. */
  datatype Birth = Birth(kind: Kind, speech: string, turnId: nat, revision: int)

  datatype Record = Record(
    births: seq<Birth>,
    said: seq<string>,
    frames: seq<seq<seq<byte>>>,
    calls: seq<Option<Call>>)
  {
    predicate Aligned(n: nat) {
      |births| == n && |said| == n && |frames| == n && |calls| == n
    }
  }

  const BLANK := Record([], [], [], [])

  function Note(r: Record, s: Server, step: Step): (r': Record)
    requires r.Aligned(|s.contexts|) && Enabled(s, step)
  {
    match step
    case Start(kind, speech, call) =>
      if s.response.Some? || (!kind.DirectSpeak? && s.pending.Some?) then r
      else
        var turn := if s.turnId.Some? then s.turnId.value else s.turns;
        var revision := if s.turnId.Some? then s.revision else s.revision + 1;
        Record(r.births + [Birth(kind, speech, turn, revision)], r.said + [""], r.frames + [[]], r.calls + [call])
    case Begin(g, _) =>
      if r.births[g].kind.DirectSpeak? then r.(said := r.said[g := r.births[g].speech]) else r
    case Text(g, delta) =>
      if s.Current(g) then r.(said := r.said[g := r.said[g] + delta]) else r
    case ToolCall(g, call) =>
      if s.Current(g) && r.calls[g].None? then r.(calls := r.calls[g := Some(call)]) else r
    case Frame(g, frame) =>
      if s.Current(g) then r.(frames := r.frames[g := r.frames[g] + [frame]]) else r
    case _ => r
  }

  /** A response follows its record. */
  predicate ContextFollows(r: Record, s: Server, g: nat)
    requires r.Aligned(|s.contexts|) && g < |s.contexts|
  {
    var c := s.contexts[g];
    && c.kind == r.births[g].kind && c.speech == r.births[g].speech
    && c.token.turnId == r.births[g].turnId && c.token.revision == r.births[g].revision
    && c.call == r.calls[g] && c.text == r.said[g]
    && (c.phase.NotStarted? ==> r.said[g] == "")
  }

  /** Its events carry what was recorded; only cancellation may cut its audio short. */
  predicate TraceFollows(r: Record, s: Server, g: nat)
    requires r.Aligned(|s.contexts|) && g < |s.contexts|
  {
    && Spoken(s.outbound.Log(), g) == r.said[g]
    && Frames(s.outbound.Log(), g) <= r.frames[g]
    && (g !in s.everCancelled ==> Frames(s.outbound.Log(), g) == r.frames[g])
    && (forall i :: 0 <= i < |CallsOf(s.outbound.Log(), g)| ==> r.calls[g] == Some(CallsOf(s.outbound.Log(), g)[i]))
  }

  ghost predicate Follows(r: Record, s: Server) {
    && r.Aligned(|s.contexts|)
    && (forall g: nat :: g < |s.contexts| ==> ContextFollows(r, s, g))
    && (forall g: nat :: g < |s.contexts| ==> TraceFollows(r, s, g))
    && (forall g: nat :: g >= |s.contexts| ==> SameFor(s.outbound.Log(), [], g))
  }

  // ---- What most steps leave alone ----

  predicate SameFacts(c: Context, c': Context) {
    && c'.kind == c.kind && c'.token == c.token && c'.speech == c.speech && c'.call == c.call && c'.text == c.text
    && (c'.phase.NotStarted? ==> c.phase.NotStarted?)
  }

  ghost predicate Mute(s: Server, s': Server) {
    && |s'.contexts| == |s.contexts| && s'.everCancelled == s.everCancelled
    && (forall h: nat :: h < |s.contexts| ==> SameFacts(s.contexts[h], s'.contexts[h]))
    && SameContent(s.outbound.Log(), s'.outbound.Log())
  }

  lemma MuteKeeps(r: Record, s: Server, s': Server)
    requires Follows(r, s) && Mute(s, s')
    ensures Follows(r, s')
  {
    forall g: nat | g < |s.contexts|
      ensures ContextFollows(r, s', g) && TraceFollows(r, s', g)
    {
      assert ContextFollows(r, s, g) && TraceFollows(r, s, g);
      assert SameFacts(s.contexts[g], s'.contexts[g]) && SameFor(s.outbound.Log(), s'.outbound.Log(), g);
    }
    forall g: nat | g >= |s.contexts|
      ensures SameFor(s'.outbound.Log(), [], g)
    {
      assert SameFor(s.outbound.Log(), [], g) && SameFor(s.outbound.Log(), s'.outbound.Log(), g);
    }
  }

  lemma SameContentTwice(a: seq<Event>, b: seq<Event>, c: seq<Event>)
    requires SameContent(a, b) && SameContent(b, c)
    ensures SameContent(a, c)
  {
    forall g: nat
      ensures SameFor(a, c, g)
    {
      assert SameFor(a, b, g) && SameFor(b, c, g);
    }
  }

  lemma MuteTwice(a: Server, b: Server, c: Server)
    requires Mute(a, b) && Mute(b, c)
    ensures Mute(a, c)
  {
    SameContentTwice(a.outbound.Log(), b.outbound.Log(), c.outbound.Log());
    forall h: nat | h < |a.contexts|
      ensures SameFacts(a.contexts[h], c.contexts[h])
    {
      assert SameFacts(a.contexts[h], b.contexts[h]) && SameFacts(b.contexts[h], c.contexts[h]);
    }
  }

  /** One context changes in other respects, and at most one bare event is sent. */
  lemma SendsBare(s: Server, s': Server, g: nat, e: Event)
    requires g < |s.contexts| == |s'.contexts| && Bare(e)
    requires s'.contexts == s.contexts[g := s'.contexts[g]] && SameFacts(s.contexts[g], s'.contexts[g])
    requires s'.outbound == s.outbound || s'.outbound == s.outbound.Send(e)
    requires s'.everCancelled == s.everCancelled
    ensures Mute(s, s')
  {
    var log := s.outbound.Log();
    BareSnoc(log, e);
    assert s.outbound.Send(e).Log() == log + [e];
    assert SameContent(log, log);
  }

  lemma SendTextDoneMute(s: Server, g: nat)
    requires g < |s.contexts|
    ensures Mute(s, s.SendTextDone(g))
  {
    SendsBare(s, s.SendTextDone(g), g, TextDone(g, s.contexts[g].text));
  }

  lemma SendAudioDoneMute(s: Server, g: nat)
    requires g < |s.contexts|
    ensures Mute(s, s.SendAudioDone(g))
  {
    SendsBare(s, s.SendAudioDone(g), g, AudioDone(g));
  }

  lemma FinalizeMute(s: Server, g: nat, ending: Ending)
    requires g < |s.contexts|
    ensures Mute(s, s.Finalize(g, ending))
  {
    SendsBare(s, s.Finalize(g, ending), g, Done(g, ending));
  }

  lemma EndSpeechMute(s: Server, g: nat, ending: Ending)
    requires g < |s.contexts|
    ensures Mute(s, s.EndSpeech(g, ending))
  {
    var a := s.SendTextDone(g);
    var b := a.SendAudioDone(g);
    SendTextDoneMute(s, g);
    SendAudioDoneMute(a, g);
    FinalizeMute(b, g, ending);
    MuteTwice(s, a, b);
    MuteTwice(s, b, s.EndSpeech(g, ending));
  }

  lemma LeaveMute(s: Server, g: nat)
    requires g < |s.contexts|
    ensures Mute(s, s.Leave(g))
  {
    SendsBare(s, s.Leave(g), g, Notice);
  }

  lemma EndEarlyMute(s: Server, g: nat, ending: Ending)
    requires g < |s.contexts|
    ensures Mute(s, s.EndEarly(g, ending))
  {
    var both := s.contexts[g].call.None? || s.contexts[g].speaking;
    var ended := if both then s.EndSpeech(g, ending) else s.Finalize(g, ending);
    EndSpeechMute(s, g, ending);
    FinalizeMute(s, g, ending);
    LeaveMute(ended, g);
    MuteTwice(s, ended, ended.Leave(g));
  }

  lemma NoticeMute(s: Server)
    ensures Mute(s, s.Send(Notice))
  {
    BareSnoc(s.outbound.Log(), Notice);
    assert s.outbound.Send(Notice).Log() == s.outbound.Log() + [Notice];
  }

  lemma EnterMute(s: Server, g: nat)
    requires g < |s.contexts|
    ensures Mute(s, s.EnterCancelled(g)) && Mute(s, s.EnterFailed(g))
  {
    if s.contexts[g].speaking {
      SendsBare(s, s.EnterCancelled(g), g, Notice);
      SendsBare(s, s.EnterFailed(g), g, Notice);
    } else {
      EndEarlyMute(s, g, CutOff);
      NoticeMute(s);
      EndEarlyMute(s.Send(Notice), g, Ending.Failed);
      MuteTwice(s, s.Send(Notice), s.EnterFailed(g));
    }
  }

  // ---- Steps that carry content ----

  /** One context and one event change; all other generations are as before. */
  lemma OneChanges(r: Record, r': Record, s: Server, s': Server, g: nat, e: Event)
    requires Follows(r, s) && r'.Aligned(|s.contexts|) && g < |s.contexts| == |s'.contexts|
    requires s'.contexts == s.contexts[g := s'.contexts[g]] && s'.everCancelled == s.everCancelled
    requires s'.outbound.Log() == s.outbound.Log() + [e] && !e.Notice? && e.generation == g
    requires forall h: nat :: h < |s.contexts| && h != g ==>
               r'.births[h] == r.births[h] && r'.said[h] == r.said[h]
               && r'.frames[h] == r.frames[h] && r'.calls[h] == r.calls[h]
    requires ContextFollows(r', s', g) && TraceFollows(r', s', g)
    ensures Follows(r', s')
  {
    var log, log' := s.outbound.Log(), s'.outbound.Log();
    forall h: nat | h < |s.contexts| && h != g
      ensures ContextFollows(r', s', h) && TraceFollows(r', s', h)
    {
      assert ContextFollows(r, s, h) && TraceFollows(r, s, h);
      ContentSnoc(log, e, h);
    }
    forall h: nat | h >= |s.contexts|
      ensures SameFor(log', [], h)
    {
      assert SameFor(log, [], h);
      ContentSnoc(log, e, h);
    }
  }

  lemma StartFollows(r: Record, s: Server, kind: Kind, speech: string, call: Option<Call>)
    requires Follows(r, s) && Inv(s) && Enabled(s, Start(kind, speech, call))
    ensures Follows(Note(r, s, Start(kind, speech, call)), s.StartResponse(kind, speech, call))
  {
    var r', s' := Note(r, s, Start(kind, speech, call)), s.StartResponse(kind, speech, call);
    if r' != r {
      var g, log := |s.contexts|, s.outbound.Log();
      assert s'.outbound.Log() == log + [Created(g)];
      BareSnoc(log, Created(g));
      assert SameFor(log, [], g) && SameFor(log, s'.outbound.Log(), g);
      forall h: nat | h < |s'.contexts|
        ensures ContextFollows(r', s', h) && TraceFollows(r', s', h)
      {
        if h < g {
          assert ContextFollows(r, s, h) && TraceFollows(r, s, h);
          assert SameFor(log, s'.outbound.Log(), h);
        }
      }
      forall h: nat | h >= |s'.contexts|
        ensures SameFor(s'.outbound.Log(), [], h)
      {
        assert SameFor(log, [], h) && SameFor(log, s'.outbound.Log(), h);
      }
    }
  }

  lemma TextFollows(r: Record, s: Server, g: nat, delta: string)
    requires Follows(r, s) && Inv(s) && Enabled(s, Text(g, delta))
    ensures Follows(Note(r, s, Text(g, delta)), s.ModelText(g, delta))
  {
    if s.Current(g) {
      assert ContextFollows(r, s, g) && TraceFollows(r, s, g);
      var e := TextDelta(g, delta);
      ContentSnoc(s.outbound.Log(), e, g);
      assert s.outbound.Send(e).Log() == s.outbound.Log() + [e];
      OneChanges(r, Note(r, s, Text(g, delta)), s, s.ModelText(g, delta), g, e);
    } else {
      EnterMute(s, g);
      MuteKeeps(r, s, s.EnterCancelled(g));
    }
  }

  lemma FrameFollows(r: Record, s: Server, g: nat, frame: seq<byte>)
    requires Follows(r, s) && Inv(s) && Enabled(s, Frame(g, frame))
    ensures Follows(Note(r, s, Frame(g, frame)), s.AudioFrame(g, frame))
  {
    if s.Current(g) {
      assert ContextFollows(r, s, g) && TraceFollows(r, s, g);
      assert g in s.everCancelled ==> CancelledIsSilent(s, g);
      var e := AudioDelta(g, s.contexts[g].audioSequence, frame);
      ContentSnoc(s.outbound.Log(), e, g);
      assert s.outbound.Send(e).Log() == s.outbound.Log() + [e];
      OneChanges(r, Note(r, s, Frame(g, frame)), s, s.AudioFrame(g, frame), g, e);
    }
  }

  lemma EmitCallFollows(r: Record, s: Server, g: nat)
    requires Follows(r, s) && g < |s.contexts| && s.contexts[g].call.Some?
    ensures Follows(r, s.EmitCall(g).Leave(g))
  {
    assert ContextFollows(r, s, g) && TraceFollows(r, s, g);
    var e := CallDone(g, s.contexts[g].call.value);
    var called := s.(pending := Some(s.Issued(g))).Send(e);
    ContentSnoc(s.outbound.Log(), e, g);
    assert called.outbound.Log() == s.outbound.Log() + [e];
    OneChanges(r, r, s, called, g, e);
    FinalizeMute(called, g, ToolCalled);
    LeaveMute(s.EmitCall(g), g);
    MuteKeeps(r, called, s.EmitCall(g));
    MuteKeeps(r, s.EmitCall(g), s.EmitCall(g).Leave(g));
  }

  /** The filler with its text recorded and sent, before the text is closed. */
  function FillerOpened(s: Server, g: nat): Server
    requires g < |s.contexts|
  {
    s.With(g, s.contexts[g].(text := s.contexts[g].speech, phase := AwaitTts)).Send(TextDelta(g, s.contexts[g].speech))
  }

  lemma FillerOpens(r: Record, s: Server, g: nat)
    requires Follows(r, s) && g < |s.contexts| && s.contexts[g].phase.NotStarted?
    ensures Follows(r.(said := r.said[g := r.births[g].speech]), FillerOpened(s, g))
  {
    assert ContextFollows(r, s, g) && TraceFollows(r, s, g);
    var e := TextDelta(g, s.contexts[g].speech);
    ContentSnoc(s.outbound.Log(), e, g);
    assert FillerOpened(s, g).outbound.Log() == s.outbound.Log() + [e];
    OneChanges(r, r.(said := r.said[g := r.births[g].speech]), s, FillerOpened(s, g), g, e);
  }

  lemma FillerCloses(s: Server, g: nat, fits: bool)
    requires g < |s.contexts| && s.contexts[g].kind.DirectSpeak?
    ensures Mute(FillerOpened(s, g), s.RunnerBegins(g, fits))
  {
    SendsBare(FillerOpened(s, g), s.RunnerBegins(g, fits), g, TextDone(g, s.contexts[g].speech));
  }

  lemma FillerFollows(r: Record, s: Server, g: nat, fits: bool)
    requires Follows(r, s) && Inv(s) && Enabled(s, Begin(g, fits)) && s.contexts[g].kind.DirectSpeak?
    ensures Follows(Note(r, s, Begin(g, fits)), s.RunnerBegins(g, fits))
  {
    assert ContextFollows(r, s, g);
    FillerOpens(r, s, g);
    FillerCloses(s, g, fits);
    MuteKeeps(r.(said := r.said[g := r.births[g].speech]), FillerOpened(s, g), s.RunnerBegins(g, fits));
  }

  lemma BeginFollows(r: Record, s: Server, g: nat, fits: bool)
    requires Follows(r, s) && Inv(s) && Enabled(s, Begin(g, fits))
    ensures Follows(Note(r, s, Begin(g, fits)), s.RunnerBegins(g, fits))
  {
    assert ContextFollows(r, s, g);
    match s.contexts[g].kind
    case DirectSpeak => FillerFollows(r, s, g, fits);
    case ModelReply =>
      SendsBare(s, s.RunnerBegins(g, fits), g, Notice);
      MuteKeeps(r, s, s.RunnerBegins(g, fits));
    case DeferredCall =>
      if s.Current(g) {
        EmitCallFollows(r, s, g);
      } else {
        EndEarlyMute(s, g, CutOff);
        MuteKeeps(r, s, s.EndEarly(g, CutOff));
      }
  }

  lemma ToolCallFollows(r: Record, s: Server, g: nat, call: Call)
    requires Follows(r, s) && Inv(s) && Enabled(s, ToolCall(g, call))
    ensures Follows(Note(r, s, ToolCall(g, call)), s.ModelCall(g, call))
  {
    assert ContextFollows(r, s, g) && ContextOk(s, g);
    EnterMute(s, g);
    if !s.Current(g) {
      MuteKeeps(r, s, s.EnterCancelled(g));
    } else if s.contexts[g].call.Some? {
      MuteKeeps(r, s, s.EnterFailed(g));
    } else {
      CallNoted(r, s, g, call);
    }
  }

  lemma CallNoted(r: Record, s: Server, g: nat, call: Call)
    requires Follows(r, s) && g < |s.contexts| && s.contexts[g].call.None?
    ensures Follows(r.(calls := r.calls[g := Some(call)]), s.With(g, s.contexts[g].(call := Some(call))))
  {
    var r', s' := r.(calls := r.calls[g := Some(call)]), s.With(g, s.contexts[g].(call := Some(call)));
    forall h: nat | h < |s.contexts|
      ensures ContextFollows(r', s', h) && TraceFollows(r', s', h)
    {
      assert ContextFollows(r, s, h) && TraceFollows(r, s, h);
    }
    forall h: nat | h >= |s.contexts|
      ensures SameFor(s'.outbound.Log(), [], h)
    {
      assert SameFor(s.outbound.Log(), [], h);
    }
  }

  lemma EndFollows(r: Record, s: Server, g: nat)
    requires Follows(r, s) && Inv(s) && Enabled(s, End(g))
    ensures Follows(r, s.ModelEnds(g))
  {
    assert ContextOk(s, g);
    if s.contexts[g].call.Some? && s.contexts[g].text == "" {
      EmitCallFollows(r, s, g);
    } else if !s.contexts[g].speaking {
      EnterMute(s, g);
      MuteKeeps(r, s, s.EnterFailed(g));
    } else {
      SendsBare(s, s.ModelEnds(g), g, TextDone(g, s.contexts[g].text));
      MuteKeeps(r, s, s.ModelEnds(g));
    }
  }

  lemma SpeechDoneFollows(r: Record, s: Server, g: nat, kept: bool)
    requires Follows(r, s) && g < |s.contexts|
    ensures Follows(r, s.TtsFinishes(g, kept))
  {
    var a := s.SendAudioDone(g);
    var b := a.Finalize(g, Completed);
    SendAudioDoneMute(s, g);
    FinalizeMute(a, g, Completed);
    LeaveMute(b, g);
    EnterMute(b, g);
    MuteKeeps(r, s, a);
    MuteKeeps(r, a, b);
    MuteKeeps(r, b, s.TtsFinishes(g, kept));
  }

  lemma CleanedUpFollows(r: Record, s: Server, g: nat)
    requires Follows(r, s) && g < |s.contexts|
    ensures Follows(r, s.CleanupEnds(g))
  {
    NoticeMute(s);
    EndEarlyMute(s, g, CutOff);
    EndEarlyMute(s.Send(Notice), g, Ending.Failed);
    MuteKeeps(r, s, s.EndEarly(g, CutOff));
    MuteKeeps(r, s, s.Send(Notice));
    MuteKeeps(r, s.Send(Notice), s.Send(Notice).EndEarly(g, Ending.Failed));
  }

  lemma CancelledMute(s: Server, g: nat)
    requires g < |s.contexts|
    ensures Mute(s.With(g, s.contexts[g].(cancelRequested := false)), s.CancelDelivered(g))
  {
    var delivered := s.With(g, s.contexts[g].(cancelRequested := false));
    if s.contexts[g].phase.NotStarted? || s.contexts[g].phase.Exited? {
      SendsBare(delivered, s.CancelDelivered(g), g, Notice);
    } else if s.contexts[g].phase.Streaming? || s.contexts[g].phase.AwaitTts? {
      EnterMute(delivered, g);
    } else {
      LeaveMute(delivered, g);
    }
  }

  lemma CancelledFollows(r: Record, s: Server, g: nat)
    requires Follows(r, s) && g < |s.contexts|
    ensures Follows(r, s.CancelDelivered(g))
  {
    var delivered := s.With(g, s.contexts[g].(cancelRequested := false));
    SendsBare(s, delivered, g, Notice);
    MuteKeeps(r, s, delivered);
    CancelledMute(s, g);
    MuteKeeps(r, delivered, s.CancelDelivered(g));
  }

  /** Cancellation may only cut the audio of its own generation. */
  lemma CancelFollows(r: Record, s: Server, generation: Option<nat>, responseId: Option<nat>)
    requires Follows(r, s) && Inv(s)
    ensures Follows(r, s.CancelRequested(generation, responseId))
  {
    var s' := s.CancelRequested(generation, responseId);
    if s.CancelHits(generation, responseId) {
      var o := s.outbound;
      forall h: nat
        ensures h < |s.contexts| ==> ContextFollows(r, s', h) && TraceFollows(r, s', h)
        ensures h >= |s.contexts| ==> SameFor(s'.outbound.Log(), [], h)
      {
        ContentPurge(o.wire, o.queue, s.response.value, h);
        if h < |s.contexts| {
          assert ContextFollows(r, s, h) && TraceFollows(r, s, h);
        } else {
          assert SameFor(o.Log(), [], h);
        }
      }
    }
  }

  lemma CancelEndsFollows(r: Record, s: Server, g: nat)
    requires Follows(r, s) && g < |s.contexts|
    ensures Follows(r, s.CancelResumes(g))
  {
    var resumed := s.(cancelling := s.cancelling - {g});
    SendsBare(s, resumed, g, Notice);
    MuteKeeps(r, s, resumed);
    EndSpeechMute(resumed, g, CutOff);
    if !s.contexts[g].finalized {
      MuteKeeps(r, resumed, resumed.EndSpeech(g, CutOff));
    }
  }

  /** Contexts stay as they are, and at most a notice is sent. */
  lemma AsideFollows(r: Record, s: Server, s': Server)
    requires Follows(r, s) && s'.contexts == s.contexts && s'.everCancelled == s.everCancelled
    requires s'.outbound == s.outbound || s'.outbound == s.outbound.Send(Notice)
             || s'.outbound.Log() == s.outbound.Log()
    ensures Follows(r, s')
  {
    NoticeMute(s);
    assert SameContent(s.outbound.Log(), s.outbound.Log());
    MuteKeeps(r, s, s');
  }

  lemma BargeInFollows(r: Record, s: Server, interrupt: bool)
    requires Follows(r, s) && Inv(s) && Enabled(s, BargeIn(interrupt))
    ensures Follows(r, s.SpeechStarts(interrupt))
  {
    var turned := s.(revision := s.revision + 1, turnId := Some(s.turns), turns := s.turns + 1, pending := None);
    SettingsChange(s, turned);
    AsideFollows(r, s, turned);
    if interrupt && s.CancelHits(None, None) {
      CancelFollows(r, turned, None, None);
    } else {
      AsideFollows(r, turned, turned.Send(Notice));
    }
  }

  lemma TakeFollows(r: Record, s: Server)
    requires Follows(r, s) && Inv(s) && Enabled(s, Take)
    ensures Follows(r, Apply(s, Take))
  {
    var e := s.outbound.queue[0];
    assert e in s.outbound.queue && (e.AudioDelta? ==> AudioOf(e, e.generation));
    assert e.AudioDelta? && e.generation in s.everCancelled ==> CancelledIsSilent(s, e.generation);
    assert Apply(s, Take).outbound.Log() == s.outbound.Log();
    AsideFollows(r, s, Apply(s, Take));
  }

  lemma StepFollows(r: Record, s: Server, step: Step)
    requires Follows(r, s) && Inv(s) && Enabled(s, step)
    ensures Follows(Note(r, s, step), Apply(s, step))
  {
    match step
    case Start(kind, speech, call) => StartFollows(r, s, kind, speech, call);
    case Begin(g, fits) => BeginFollows(r, s, g, fits);
    case Text(g, delta) => TextFollows(r, s, g, delta);
    case ToolCall(g, call) => ToolCallFollows(r, s, g, call);
    case End(g) => EndFollows(r, s, g);
    case Fail(g) =>
      EnterMute(s, g);
      MuteKeeps(r, s, s.EnterFailed(g));
    case SpeechDone(g, kept) => SpeechDoneFollows(r, s, g, kept);
    case CleanedUp(g) => CleanedUpFollows(r, s, g);
    case Cancelled(g) => CancelledFollows(r, s, g);
    case Cancel(generation, responseId) => CancelFollows(r, s, generation, responseId);
    case CancelEnds(g) => CancelEndsFollows(r, s, g);
    case Frame(g, frame) => FrameFollows(r, s, g, frame);
    case BargeIn(interrupt) => BargeInFollows(r, s, interrupt);
    case Take => TakeFollows(r, s);
    case _ => AsideFollows(r, s, Apply(s, step));
  }

  // ---- Main results ----

  /** The record of a run. */
  function NoteAll(r: Record, s: Server, steps: seq<Step>): Record
    requires r.Aligned(|s.contexts|) && Possible(s, steps)
    decreases |steps|
  {
    if steps == [] then r
    else
      var noted, next := Note(r, s, steps[0]), Apply(s, steps[0]);
      if noted.Aligned(|next.contexts|) then NoteAll(noted, next, steps[1..]) else noted
  }

  lemma {:induction false} FollowsAll(r: Record, s: Server, steps: seq<Step>)
    requires Follows(r, s) && Inv(s) && Possible(s, steps)
    ensures Follows(NoteAll(r, s, steps), Execute(s, steps))
    decreases |steps|
  {
    if steps == [] {
    } else {
      StepFollows(r, s, steps[0]);
      StepKeepsInv(s, steps[0]);
      FollowsAll(Note(r, s, steps[0]), Apply(s, steps[0]), steps[1..]);
    }
  }

  lemma BlankFollows()
    ensures Follows(BLANK, INITIAL) && Inv(INITIAL)
  {
    InitialInv();
    assert INITIAL.outbound.Log() == [];
  }

  /**
   Over all runs, for every response: its text deltas joined are what was said, its frames
   are those synthesized (a first part of them when it was cancelled), and every call sent
   for it is the model's.
   */
  lemma RunFollowsRecord(steps: seq<Step>, g: nat)
    requires Possible(INITIAL, steps) && g < |Execute(INITIAL, steps).contexts|
    ensures var r, s := NoteAll(BLANK, INITIAL, steps), Execute(INITIAL, steps);
            && r.Aligned(|s.contexts|)
            && Spoken(s.outbound.Log(), g) == r.said[g]
            && Frames(s.outbound.Log(), g) <= r.frames[g]
            && (g !in s.everCancelled ==> Frames(s.outbound.Log(), g) == r.frames[g])
            && forall i :: 0 <= i < |CallsOf(s.outbound.Log(), g)| ==>
                 r.calls[g] == Some(CallsOf(s.outbound.Log(), g)[i])
  {
    BlankFollows();
    FollowsAll(BLANK, INITIAL, steps);
    assert TraceFollows(NoteAll(BLANK, INITIAL, steps), Execute(INITIAL, steps), g);
  }

  // ---- Tool calls ----

  /** The call that a response of the record issues. */
  function Recorded(r: Record, g: nat): FunctionCall
    requires g < |r.births| == |r.calls| && r.calls[g].Some?
  {
    FunctionCall(g, r.calls[g].value, Origin(r.births[g].turnId, r.births[g].revision, g, g))
  }

  /**
   A call becomes pending only as the recorded call of the response that ends with this
   step, with the turn and revision of its start; or as the replayed item of a tool that
   is offered, before the tools are frozen.
   */
  lemma PendingCallIsTheModels(r: Record, s: Server, step: Step)
    requires Follows(r, s) && Inv(s) && Enabled(s, step)
    requires s.pending.None? && Apply(s, step).pending.Some?
    ensures if step.CreateItem?
            then step.item == CallItem(Apply(s, step).pending.value)
                 && s.replayOpen && !s.toolsFrozen && step.item.call.call.name in s.tools
            else (step.End? || step.Begin?) && r.calls[step.g].Some?
                 && Apply(s, step).pending == Some(Recorded(r, step.g))
                 && Apply(s, step).contexts[step.g].finalized
  {
    if step.Begin? || step.End? {
      assert ContextOk(s, step.g) && ContextFollows(r, s, step.g);
    }
  }

  /** Conversely, a reply that ends with a call and no text issues it, and so does a deferred call still in force. */
  lemma CallBecomesPending(r: Record, s: Server, step: Step)
    requires Follows(r, s) && Inv(s) && Enabled(s, step)
    requires || (step.End? && r.calls[step.g].Some? && r.said[step.g] == "")
             || (step.Begin? && r.births[step.g].kind.DeferredCall? && s.Current(step.g))
    ensures r.calls[step.g].Some? && Apply(s, step).pending == Some(Recorded(r, step.g))
    ensures CallsOf(Apply(s, step).outbound.Log(), step.g) ==
            CallsOf(s.outbound.Log(), step.g) + [r.calls[step.g].value]
  {
    var g := step.g;
    assert ContextOk(s, g) && ContextFollows(r, s, g);
    var e := CallDone(g, s.contexts[g].call.value);
    var called := s.(pending := Some(s.Issued(g))).Send(e);
    ContentSnoc(s.outbound.Log(), e, g);
    assert called.outbound.Log() == s.outbound.Log() + [e];
    FinalizeMute(called, g, ToolCalled);
    LeaveMute(s.EmitCall(g), g);
    MuteTwice(called, s.EmitCall(g), s.EmitCall(g).Leave(g));
    assert SameFor(called.outbound.Log(), s.EmitCall(g).Leave(g).outbound.Log(), g);
  }

  // ---- Turns ----

  /** Turn ids so far lie below the counter, and revisions at or below the current one. */
  predicate TurnsCounted(r: Record, s: Server) {
    && (s.turnId.Some? ==> s.turnId.value < s.turns)
    && (forall g :: 0 <= g < |r.births| ==> r.births[g].turnId < s.turns && r.births[g].revision <= s.revision)
  }

  /** A step of a runner, or the end of a cancellation. */
  predicate OfResponse(step: Step) {
    || step.Begin? || step.Text? || step.ToolCall? || step.End? || step.Fail? || step.SpeechDone?
    || step.CleanedUp? || step.Cancelled? || step.CancelEnds? || step.Frame?
  }

  lemma ResponsesKeepTurn(s: Server, step: Step)
    requires Enabled(s, step) && OfResponse(step)
    ensures s.SameSetting(Apply(s, step))
  {
  }

  predicate TurnsGrow(s: Server, s': Server) {
    && s'.turns >= s.turns && s'.revision >= s.revision
    && ((s.turnId.Some? ==> s.turnId.value < s.turns) ==> s'.turnId.Some? ==> s'.turnId.value < s'.turns)
  }

  lemma OthersCountTurns(s: Server, step: Step)
    requires Enabled(s, step) && !OfResponse(step)
    ensures TurnsGrow(s, Apply(s, step))
  {
  }

  lemma StepCountsTurns(s: Server, step: Step)
    requires Enabled(s, step)
    ensures TurnsGrow(s, Apply(s, step))
  {
    if OfResponse(step) {
      ResponsesKeepTurn(s, step);
    } else {
      OthersCountTurns(s, step);
    }
  }

  lemma OnlyStartsGiveBirth(r: Record, s: Server, step: Step)
    requires r.Aligned(|s.contexts|) && Enabled(s, step) && !step.Start?
    ensures Note(r, s, step).births == r.births
  {
  }

  lemma StepKeepsTurnsCounted(r: Record, s: Server, step: Step)
    requires r.Aligned(|s.contexts|) && Enabled(s, step) && TurnsCounted(r, s)
    ensures TurnsCounted(Note(r, s, step), Apply(s, step))
  {
    StepCountsTurns(s, step);
    if !step.Start? {
      OnlyStartsGiveBirth(r, s, step);
    }
  }

  lemma {:induction false} RunKeepsTurnsCounted(r: Record, s: Server, steps: seq<Step>)
    requires Follows(r, s) && Inv(s) && Possible(s, steps) && TurnsCounted(r, s)
    ensures TurnsCounted(NoteAll(r, s, steps), Execute(s, steps))
    decreases |steps|
  {
    if steps == [] {
    } else {
      StepFollows(r, s, steps[0]);
      StepKeepsInv(s, steps[0]);
      StepKeepsTurnsCounted(r, s, steps[0]);
      RunKeepsTurnsCounted(Note(r, s, steps[0]), Apply(s, steps[0]), steps[1..]);
    }
  }

  /** In every run, speech and committed audio open a turn no response had, with the next revision. */
  lemma NewTurnIsFresh(steps: seq<Step>, step: Step)
    requires Possible(INITIAL, steps) && Enabled(Execute(INITIAL, steps), step) && (step.BargeIn? || step.OpenTurn?)
    ensures var r, s := NoteAll(BLANK, INITIAL, steps), Execute(INITIAL, steps);
            var s' := Apply(s, step);
            && s'.turnId.Some? && s'.turnId != s.turnId && s'.revision == s.revision + 1
            && forall g :: 0 <= g < |r.births| ==>
                 r.births[g].turnId != s'.turnId.value && r.births[g].revision < s'.revision
  {
    BlankFollows();
    RunKeepsTurnsCounted(BLANK, INITIAL, steps);
  }

  /** Once audio was cleared, the next response gets a turn of its own. */
  lemma ForgottenTurnIsOver(steps: seq<Step>, kind: Kind, speech: string, call: Option<Call>)
    requires Possible(INITIAL, steps) && Enabled(Execute(INITIAL, steps), ForgetTurn)
    requires var cleared := Apply(Execute(INITIAL, steps), ForgetTurn);
             Enabled(cleared, Start(kind, speech, call)) && cleared.response.None? && cleared.pending.None?
    ensures var r, s := NoteAll(BLANK, INITIAL, steps), Execute(INITIAL, steps);
            var s' := Apply(Apply(s, ForgetTurn), Start(kind, speech, call));
            && |s'.contexts| == |s.contexts| + 1
            && s'.contexts[|s.contexts|].token.revision == s.revision + 1
            && forall g :: 0 <= g < |r.births| ==>
                 r.births[g].turnId != s'.contexts[|s.contexts|].token.turnId
  {
    BlankFollows();
    RunKeepsTurnsCounted(BLANK, INITIAL, steps);
  }
}
