/**
 The server events of a response, and the grammar of a well-formed response trace.

 The grammar is the promise of the protocol, written without reference to either
 the server or the client: at most one open response, consecutive audio sequence
 numbers from zero, one text-done followed by one audio-done, and no response that
 mixes speech with a function call.
 */
module Wire {
  import opened Options

  const FRAME_BYTES: nat := 960

  datatype Call = Call(callId: nat, name: nat, arguments: string)

  /** Status and reason of a done event: completed, completed with a tool call, cancelled, failed. */
  datatype Ending = Completed | ToolCalled | CutOff | Failed

  datatype Event =
    | Created(generation: nat)
    | TextDelta(generation: nat, delta: string)
    | TextDone(generation: nat, text: string)
    | AudioDelta(generation: nat, sequence: nat, frame: seq<byte>)
    | AudioDone(generation: nat)
    | CallDone(generation: nat, call: Call)
    | Done(generation: nat, ending: Ending)
    | Notice  // every event that is not about a response

  predicate About(e: Event, generation: nat) {
    !e.Notice? && e.generation == generation
  }

  predicate AudioOf(e: Event, generation: nat) {
    e.AudioDelta? && e.generation == generation
  }

  /** `Idle(last)`: no response is open and `last` is the number of responses so far. */
  datatype Grammar =
    | Idle(last: nat)
    | Open(generation: nat, text: string, next: nat, textDone: bool, audioDone: bool, called: bool)

  function Next(g: Grammar, e: Event): Option<Grammar> {
    if e.Notice? then
      Some(g)
    else if e.Created? then
      if g.Idle? && e.generation >= g.last then Some(Open(e.generation, "", 0, false, false, false)) else None
    else if g.Idle? || g.generation != e.generation then
      None
    else
      match e
      case TextDelta(_, delta) =>
        if !g.textDone && !g.called && delta != "" then Some(g.(text := g.text + delta)) else None
      case TextDone(_, text) =>
        if !g.textDone && !g.called && text == g.text then Some(g.(textDone := true)) else None
      case AudioDelta(_, n, frame) =>
        if !g.audioDone && !g.called && n == g.next && |frame| == FRAME_BYTES
        then Some(g.(next := g.next + 1)) else None
      case AudioDone(_) =>
        if g.textDone && !g.audioDone && !g.called then Some(g.(audioDone := true)) else None
      case CallDone(_, _) =>
        if g.text == "" && g.next == 0 && !g.textDone && !g.called then Some(g.(called := true)) else None
      case Done(_, ending) =>
        if ending.ToolCalled? == g.called && g.textDone == g.audioDone then Some(Idle(g.generation + 1)) else None
  }

  function NextOption(g: Option<Grammar>, e: Event): Option<Grammar> {
    if g.None? then None else Next(g.value, e)
  }

  function Parse(trace: seq<Event>): Option<Grammar> {
    if trace == [] then Some(Idle(0))
    else NextOption(Parse(trace[..|trace| - 1]), trace[|trace| - 1])
  }

  predicate WellFormed(trace: seq<Event>) {
    Parse(trace).Some?
  }

  /** The events that are left when the audio of one generation is taken out. */
  function Purge(events: seq<Event>, generation: nat): seq<Event> {
    if events == [] then []
    else
      var e := events[|events| - 1];
      var before := Purge(events[..|events| - 1], generation);
      if AudioOf(e, generation) then before else before + [e]
  }

  lemma ParseAppend(trace: seq<Event>, e: Event)
    ensures Parse(trace + [e]) == NextOption(Parse(trace), e)
  {
    assert (trace + [e])[..|trace|] == trace;
  }

  lemma {:induction false} ParsePrefix(trace: seq<Event>, n: nat)
    requires n <= |trace| && WellFormed(trace)
    ensures WellFormed(trace[..n])
  {
    if n == |trace| {
      assert trace[..n] == trace;
    } else {
      ParsePrefix(trace[..|trace| - 1], n);
      assert trace[..|trace| - 1][..n] == trace[..n];
    }
  }

  /** Two grammar states that differ at most in how much audio of `generation` was seen. */
  predicate SameButAudio(full: Grammar, purged: Grammar, generation: nat) {
    full == purged
    || (full.Open? && purged.Open? && full.generation == generation
        && purged.next <= full.next && purged == full.(next := purged.next))
  }

  lemma NextSameButAudio(full: Grammar, purged: Grammar, generation: nat, e: Event)
    requires SameButAudio(full, purged, generation) && Next(full, e).Some?
    ensures AudioOf(e, generation) ==> SameButAudio(Next(full, e).value, purged, generation)
    ensures !AudioOf(e, generation) ==>
              Next(purged, e).Some? && SameButAudio(Next(full, e).value, Next(purged, e).value, generation)
  {
  }

  /** Taking queued audio of one generation out of a well-formed trace keeps it well formed. */
  lemma {:induction false} PurgeKeepsWellFormed(sent: seq<Event>, queue: seq<Event>, generation: nat)
    requires WellFormed(sent + queue)
    ensures WellFormed(sent + Purge(queue, generation))
    ensures SameButAudio(Parse(sent + queue).value, Parse(sent + Purge(queue, generation)).value, generation)
  {
    if queue == [] {
      assert sent + queue == sent + Purge(queue, generation);
    } else {
      var front, e := queue[..|queue| - 1], queue[|queue| - 1];
      var purged := Purge(front, generation);
      assert sent + queue == (sent + front) + [e];
      ParseAppend(sent + front, e);
      PurgeKeepsWellFormed(sent, front, generation);
      NextSameButAudio(Parse(sent + front).value, Parse(sent + purged).value, generation, e);
      if AudioOf(e, generation) {
        assert Purge(queue, generation) == purged;
      } else {
        assert sent + Purge(queue, generation) == (sent + purged) + [e];
        ParseAppend(sent + purged, e);
      }
    }
  }

  // ---- What a well-formed trace says about one response ----

  datatype EventKind =
    IsCreated | IsTextDelta | IsTextDone | IsAudioDelta | IsAudioDone | IsCallDone | IsDone | IsNotice

  function KindOf(e: Event): EventKind {
    match e
    case Created(_) => IsCreated
    case TextDelta(_, _) => IsTextDelta
    case TextDone(_, _) => IsTextDone
    case AudioDelta(_, _, _) => IsAudioDelta
    case AudioDone(_) => IsAudioDone
    case CallDone(_, _) => IsCallDone
    case Done(_, _) => IsDone
    case Notice => IsNotice
  }

  function Count(trace: seq<Event>, generation: nat, kind: EventKind): nat {
    if trace == [] then 0
    else
      var e := trace[|trace| - 1];
      Count(trace[..|trace| - 1], generation, kind)
      + if About(e, generation) && KindOf(e) == kind then 1 else 0
  }

  /** The audio sequence numbers of one generation, in order. */
  function Sequences(trace: seq<Event>, generation: nat): seq<nat> {
    if trace == [] then []
    else
      var e := trace[|trace| - 1];
      var before := Sequences(trace[..|trace| - 1], generation);
      if AudioOf(e, generation) then before + [e.sequence] else before
  }

  /** The text deltas of one generation, joined. */
  function Spoken(trace: seq<Event>, generation: nat): string {
    if trace == [] then ""
    else
      var e := trace[|trace| - 1];
      var before := Spoken(trace[..|trace| - 1], generation);
      if e.TextDelta? && e.generation == generation then before + e.delta else before
  }

  /** The generations that a grammar state has already seen lie below this bound or are open. */
  function Floor(g: Grammar): nat {
    if g.Idle? then g.last else g.generation
  }

  predicate Flag(n: nat, b: bool) {
    n == if b then 1 else 0
  }

  /** How the parse of a trace relates to the counts of one generation. */
  predicate Records(g: Grammar, trace: seq<Event>, gen: nat) {
    && (forall i :: 0 <= i < |Sequences(trace, gen)| ==> Sequences(trace, gen)[i] == i)
    && |Sequences(trace, gen)| == Count(trace, gen, IsAudioDelta)
    && (gen >= Floor(g) && !(g.Open? && g.generation == gen) ==>
          Spoken(trace, gen) == "" && forall k: EventKind :: Count(trace, gen, k) == 0)
    && (gen < Floor(g) ==> Single(trace, gen))
    && (g.Open? && g.generation == gen ==>
          && Count(trace, gen, IsCreated) == 1
          && Flag(Count(trace, gen, IsTextDone), g.textDone)
          && Flag(Count(trace, gen, IsAudioDone), g.audioDone)
          && Flag(Count(trace, gen, IsCallDone), g.called)
          && Count(trace, gen, IsDone) == 0
          && g.next == Count(trace, gen, IsAudioDelta)
          && g.text == Spoken(trace, gen)
          && (g.text == "" ==> Count(trace, gen, IsTextDelta) == 0)
          && (g.called ==> g.text == "" && g.next == 0 && !g.textDone))
  }

  /** Every terminal event of the generation occurs at most once, and a call excludes speech. */
  predicate Single(trace: seq<Event>, gen: nat) {
    && Count(trace, gen, IsCreated) <= 1
    && Count(trace, gen, IsTextDone) <= 1
    && Count(trace, gen, IsAudioDone) <= 1
    && Count(trace, gen, IsCallDone) <= 1
    && Count(trace, gen, IsDone) <= 1
    && (Count(trace, gen, IsCallDone) == 1 ==>
          Count(trace, gen, IsTextDelta) == 0 && Count(trace, gen, IsAudioDelta) == 0)
  }

  lemma {:induction false} ParseRecords(trace: seq<Event>, gen: nat)
    requires WellFormed(trace)
    ensures Records(Parse(trace).value, trace, gen)
  {
    if trace == [] {
    } else {
      ParseRecords(trace[..|trace| - 1], gen);
    }
  }

  /** One response speaks in consecutive frames, ends each stream once, and never mixes in a call. */
  lemma WellFormedResponse(trace: seq<Event>, gen: nat)
    requires WellFormed(trace)
    ensures Sequences(trace, gen) == seq(|Sequences(trace, gen)|, i => i)
    ensures Single(trace, gen)
  {
    ParseRecords(trace, gen);
  }

  lemma {:induction false} FloorGrows(trace: seq<Event>, n: nat)
    requires n <= |trace| && WellFormed(trace)
    ensures WellFormed(trace[..n]) && Floor(Parse(trace[..n]).value) <= Floor(Parse(trace).value)
  {
    if n == |trace| {
      assert trace[..n] == trace;
    } else {
      FloorGrows(trace[..|trace| - 1], n);
      assert trace[..|trace| - 1][..n] == trace[..n];
    }
  }

  lemma ParseAt(trace: seq<Event>, i: nat)
    requires i < |trace| && WellFormed(trace)
    ensures WellFormed(trace[..i]) && Next(Parse(trace[..i]).value, trace[i]) == Parse(trace[..i + 1])
    ensures WellFormed(trace[..i + 1])
  {
    ParsePrefix(trace, i);
    ParsePrefix(trace, i + 1);
    assert trace[..i + 1][..i] == trace[..i];
  }

  /** After its done event a response is never mentioned again. */
  lemma NothingAfterDone(trace: seq<Event>, i: nat, j: nat)
    requires i < j < |trace| && WellFormed(trace) && trace[i].Done?
    ensures !About(trace[j], trace[i].generation)
  {
    ParseAt(trace, i);
    ParseAt(trace, j);
    FloorGrows(trace[..j], i + 1);
    assert trace[..j][..i + 1] == trace[..i + 1];
  }

  /** Two responses never overlap: the first is done before the second is created. */
  lemma {:induction false} NoOverlap(trace: seq<Event>, i: nat, j: nat)
    requires i < j < |trace| && WellFormed(trace) && trace[i].Created? && trace[j].Created?
    ensures exists k :: i < k < j && trace[k].Done? && trace[k].generation == trace[i].generation
  {
    ParseAt(trace, i);
    var k := OpenUntilDone(trace, i, j);
  }

  lemma {:induction false} OpenUntilDone(trace: seq<Event>, i: nat, j: nat) returns (k: nat)
    requires i < j < |trace| && WellFormed(trace) && trace[j].Created?
    requires WellFormed(trace[..i + 1]) && Parse(trace[..i + 1]).value.Open?
    ensures i < k < j && trace[k].Done?
    ensures trace[k].generation == Parse(trace[..i + 1]).value.generation
    decreases j - i
  {
    ParseAt(trace, i + 1);
    if i + 1 < j && trace[i + 1].Done? {
      k := i + 1;
    } else {
      k := OpenUntilDone(trace, i + 1, j);
    }
  }

  /** No audio of a response follows its audio-done. */
  lemma {:induction false} NoAudioAfterAudioDone(trace: seq<Event>, i: nat, j: nat)
    requires i < j < |trace| && WellFormed(trace) && trace[i].AudioDone?
    ensures !AudioOf(trace[j], trace[i].generation)
  {
    ParseAt(trace, i);
    ParseAt(trace, j);
    assert trace[..j][..i + 1] == trace[..i + 1];
    AudioStaysDone(trace[..j], i + 1, trace[i].generation);
  }

  predicate AudioClosed(g: Grammar, gen: nat) {
    Floor(g) > gen || (g.Open? && g.generation == gen && g.audioDone)
  }

  lemma {:induction false} AudioStaysDone(trace: seq<Event>, n: nat, gen: nat)
    requires n <= |trace| && WellFormed(trace) && WellFormed(trace[..n])
    requires AudioClosed(Parse(trace[..n]).value, gen)
    ensures AudioClosed(Parse(trace).value, gen)
  {
    if n == |trace| {
      assert trace[..n] == trace;
    } else {
      assert trace[..|trace| - 1][..n] == trace[..n];
      AudioStaysDone(trace[..|trace| - 1], n, gen);
    }
  }

  /** The final text of a response is the concatenation of its deltas. */
  lemma TextDoneRepeatsDeltas(trace: seq<Event>, i: nat)
    requires i < |trace| && WellFormed(trace) && trace[i].TextDone?
    ensures trace[i].text == Spoken(trace[..i], trace[i].generation)
  {
    ParseAt(trace, i);
    ParseRecords(trace[..i], trace[i].generation);
  }

  /** Every frame is exactly 20 ms, and what a response says is not empty. */
  lemma {:induction false} PartsAreWhole(trace: seq<Event>, i: nat)
    requires i < |trace| && WellFormed(trace)
    ensures trace[i].AudioDelta? ==> |trace[i].frame| == 960
    ensures trace[i].TextDelta? ==> trace[i].delta != ""
  {
    ParseAt(trace, i);
  }
}
