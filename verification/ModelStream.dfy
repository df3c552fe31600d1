/**
 The order of visible text and tool call in one model generation
 (runtimes/llama_cpp_chat.py, `stream_response` and `_ToolCallAccumulator`).

 Main results: `TextIsVisiblePrefix` (the emitted text is the visible part of all
 content that came before the tool call appeared), `TextBeforeCall` (at most one call, and
 no text after it) and `SpokenTextSurvives` (once text is out, a bad call costs only
 itself).
 */
module ModelStream {
  import opened Options
  import opened ThinkFilter
  import S = Segmentation

  const MAX_ARGUMENTS: nat := 16_000

  datatype StreamError = Leaked | InvalidCall

  datatype Identifier = Absent | NotText | Id(text: string)

  /** A piece of the name and of the arguments, if they are strings. */
  datatype Function = BadFunction | Function(name: string, arguments: string)

  /** `Unreadable`: no object, or its index is no number. */
  datatype Chunk = Unreadable | Chunk(index: int, id: Identifier, body: Function)

  datatype Calls = NoCalls | NotAList | Calls(chunks: seq<Chunk>)

  datatype Delta = Delta(calls: Calls, reasoning: bool, content: string)

  datatype Accumulator = Accumulator(index: Option<int>, callId: Option<string>, name: string, arguments: string)

  const NO_CALL := Accumulator(None, None, "", "")

  /** Takes one chunk as far as it is valid; false when it is not. */
  function TakeChunk(a: Accumulator, c: Chunk): (Accumulator, bool) {
    if c.Unreadable? || c.index < 0 then (a, false)
    else if a.index.Some? && a.index.value != c.index then (a, false)
    else
      var indexed := a.(index := Some(c.index));
      if c.id.NotText? || (c.id.Id? && a.callId.Some? && c.id.text != a.callId.value) then (indexed, false)
      else
        var identified := indexed.(callId := if c.id.Id? then Some(c.id.text) else a.callId);
        if c.body.BadFunction? then (identified, false)
        else
          var taken := identified.(name := a.name + c.body.name, arguments := a.arguments + c.body.arguments);
          (taken, |taken.arguments| <= MAX_ARGUMENTS)
  }

  function TakeAll(a: Accumulator, chunks: seq<Chunk>): (Accumulator, bool)
    decreases |chunks|
  {
    if chunks == [] then (a, true)
    else
      var (next, ok) := TakeChunk(a, chunks[0]);
      if ok then TakeAll(next, chunks[1..]) else (next, false)
  }

  function TakeCalls(a: Accumulator, calls: Calls): (Accumulator, bool) {
    match calls
    case NoCalls => (a, true)
    case NotAList => (a, false)
    case Calls(chunks) => TakeAll(a, chunks)
  }

  function Arguments(chunks: seq<Chunk>): string {
    if chunks == [] then ""
    else
      (if chunks[0].Chunk? && chunks[0].body.Function? then chunks[0].body.arguments else "")
      + Arguments(chunks[1..])
  }

  function Names(chunks: seq<Chunk>): string {
    if chunks == [] then ""
    else (if chunks[0].Chunk? && chunks[0].body.Function? then chunks[0].body.name else "") + Names(chunks[1..])
  }

  /** The chunk belongs to the call. */
  predicate PartOf(c: Chunk, a: Accumulator) {
    && c.Chunk? && a.index == Some(c.index) && c.body.Function?
    && (c.id.Absent? || (c.id.Id? && a.callId == Some(c.id.text)))
  }

  /** Accepted chunks are one call: one index, one id, the arguments joined in order. */
  lemma {:induction false} OneCall(a: Accumulator, chunks: seq<Chunk>)
    requires TakeAll(a, chunks).1 && |a.arguments| <= MAX_ARGUMENTS
    ensures var b := TakeAll(a, chunks).0;
            && b.arguments == a.arguments + Arguments(chunks) && |b.arguments| <= 16_000
            && b.name == a.name + Names(chunks)
            && (a.index.Some? ==> b.index == a.index) && (a.callId.Some? ==> b.callId == a.callId)
            && forall i :: 0 <= i < |chunks| ==> PartOf(chunks[i], b)
    decreases |chunks|
  {
    if chunks == [] {
      assert a.arguments + "" == a.arguments && a.name + "" == a.name;
    } else {
      var next := TakeChunk(a, chunks[0]).0;
      OneCall(next, chunks[1..]);
      assert a.arguments + (chunks[0].body.arguments + Arguments(chunks[1..]))
          == (a.arguments + chunks[0].body.arguments) + Arguments(chunks[1..]);
      assert a.name + (chunks[0].body.name + Names(chunks[1..])) == (a.name + chunks[0].body.name) + Names(chunks[1..]);
    }
  }

  // ---- One generation ----

  datatype Progress = Progress(
    call: Accumulator,
    broken: bool,
    filter: Filter,
    texts: seq<string>,
    error: Option<StreamError>)

  const BEGUN := Progress(NO_CALL, false, FRESH, [], None)

  /** The chunks of a call are taken first; after spoken text a bad one only breaks the call. */
  function WithCalls(p: Progress, calls: Calls): Progress {
    if calls.NoCalls? || p.broken then p
    else
      var (call, ok) := TakeCalls(p.call, calls);
      if ok then p.(call := call)
      else if p.texts != [] then p.(call := call, broken := true)
      else p.(call := call, error := Some(InvalidCall))
  }

  function WithContent(low: Lower, p: Progress, content: string): Progress {
    match PushOne(low, p.filter, content)
    case Err(_) => p.(error := Some(Leaked))
    case Ok((filter, visible)) =>
      if visible == "" || p.call.index.Some? then p.(filter := filter)
      else p.(filter := filter, texts := p.texts + [visible])
  }

  function WithDelta(low: Lower, p: Progress, d: Delta): Progress {
    if p.error.Some? then p
    else
      var called := WithCalls(p, d.calls);
      if called.error.Some? || d.reasoning then called else WithContent(low, called, d.content)
  }

  function After(low: Lower, deltas: seq<Delta>): Progress {
    if deltas == [] then BEGUN else WithDelta(low, After(low, deltas[..|deltas| - 1]), deltas[|deltas| - 1])
  }

  /** The content that reaches the visible-text filter. */
  function Content(deltas: seq<Delta>): string {
    if deltas == [] then ""
    else Content(deltas[..|deltas| - 1]) + if deltas[|deltas| - 1].reasoning then "" else deltas[|deltas| - 1].content
  }

  lemma ConcatSnoc(parts: seq<string>, last: string)
    ensures S.Concat(parts + [last]) == S.Concat(parts) + last
  {
    S.ConcatAppend(parts, [last]);
    assert [last][1..] == [] && last + "" == last;
  }

  /** While no call has appeared, the filter holds the whole content and all it shows is out. */
  predicate InStep(low: Lower, p: Progress, s: string) {
    Holds(low, p.filter, s) && (p.call.index.None? ==> S.Concat(p.texts) == Batch(low, s))
  }

  lemma CallsInStep(low: Lower, p: Progress, s: string, calls: Calls)
    requires InStep(low, p, s)
    ensures InStep(low, WithCalls(p, calls), s)
  {
    IndexStays(p.call, calls);
  }

  lemma ContentInStep(low: Lower, p: Progress, s: string, content: string)
    requires InStep(low, p, s) && PushOne(low, p.filter, content).Ok?
    ensures InStep(low, WithContent(low, p, content), s + content)
  {
    PushFollows(low, p.filter, s, content);
    var visible := PushOne(low, p.filter, content).value.1;
    ConcatSnoc(p.texts, visible);
    assert visible == "" ==> Batch(low, s) + visible == Batch(low, s);
  }

  lemma DeltaInStep(low: Lower, p: Progress, s: string, d: Delta)
    requires p.error.None? && InStep(low, p, s) && WithDelta(low, p, d).error.None?
    ensures InStep(low, WithDelta(low, p, d), s + if d.reasoning then "" else d.content)
  {
    CallsInStep(low, p, s, d.calls);
    if d.reasoning {
      assert s + "" == s;
    } else {
      ContentInStep(low, WithCalls(p, d.calls), s, d.content);
    }
  }

  lemma {:induction false} AlwaysInStep(low: Lower, deltas: seq<Delta>)
    requires After(low, deltas).error.None?
    ensures InStep(low, After(low, deltas), Content(deltas))
    decreases |deltas|
  {
    if deltas == [] {
    } else {
      AlwaysInStep(low, deltas[..|deltas| - 1]);
      DeltaInStep(low, After(low, deltas[..|deltas| - 1]), Content(deltas[..|deltas| - 1]), deltas[|deltas| - 1]);
    }
  }

  predicate Blocked(p: Progress) {
    p.call.index.Some? || p.error.Some?
  }

  /** Once a call has appeared or the stream has failed, no text is emitted. */
  lemma BlockedStays(low: Lower, p: Progress, d: Delta)
    ensures Blocked(p) ==> Blocked(WithDelta(low, p, d))
    ensures Blocked(WithDelta(low, p, d)) ==> WithDelta(low, p, d).texts == p.texts
  {
    IndexStays(p.call, d.calls);
  }

  lemma IndexStays(a: Accumulator, calls: Calls)
    ensures a.index.Some? ==> TakeCalls(a, calls).0.index.Some?
  {
    if calls.Calls? {
      IndexStaysAll(a, calls.chunks);
    }
  }

  lemma {:induction false} IndexStaysAll(a: Accumulator, chunks: seq<Chunk>)
    ensures a.index.Some? ==> TakeAll(a, chunks).0.index.Some?
    decreases |chunks|
  {
    if chunks == [] {
    } else {
      IndexStaysAll(TakeChunk(a, chunks[0]).0, chunks[1..]);
    }
  }

  /**
   The emitted texts are together the visible part of the content of the first `cut`
   deltas, and only the appearance of a call, or an error, ends that prefix.
   */
  predicate CutAt(low: Lower, deltas: seq<Delta>, cut: nat) {
    && cut <= |deltas| && !Blocked(After(low, deltas[..cut]))
    && S.Concat(After(low, deltas).texts) == Batch(low, Content(deltas[..cut]))
    && (cut < |deltas| ==> Blocked(After(low, deltas[..cut + 1])) && Blocked(After(low, deltas)))
  }

  lemma CutStays(low: Lower, deltas: seq<Delta>, front: seq<Delta>, d: Delta, cut: nat)
    requires deltas == front + [d] && CutAt(low, front, cut) && Blocked(After(low, deltas))
    ensures CutAt(low, deltas, cut)
  {
    assert deltas[..|front|] == front && deltas[|front|] == d;
    BlockedStays(low, After(low, front), d);
    assert front[..cut] == deltas[..cut] && deltas[..|deltas|] == deltas;
    assert cut < |front| ==> front[..cut + 1] == deltas[..cut + 1];
  }

  lemma {:induction false} TextIsVisiblePrefix(low: Lower, deltas: seq<Delta>) returns (cut: nat)
    ensures CutAt(low, deltas, cut)
    decreases |deltas|
  {
    if !Blocked(After(low, deltas)) {
      AlwaysInStep(low, deltas);
      cut := |deltas|;
      assert deltas[..cut] == deltas;
    } else {
      var front := deltas[..|deltas| - 1];
      cut := TextIsVisiblePrefix(low, front);
      CutStays(low, deltas, front, deltas[|deltas| - 1], cut);
    }
  }

  /** Emitted texts are non-empty; once text is out, only a leaked marker fails the stream. */
  lemma {:induction false} SpokenTextSurvives(low: Lower, deltas: seq<Delta>)
    ensures forall t :: t in After(low, deltas).texts ==> t != ""
    ensures After(low, deltas).error == Some(InvalidCall) ==> After(low, deltas).texts == []
    decreases |deltas|
  {
    if deltas == [] {
    } else {
      SpokenTextSurvives(low, deltas[..|deltas| - 1]);
    }
  }

  // ---- Which call ----

  /** The call fragments of a stream, in order. */
  function Fragments(deltas: seq<Delta>): seq<Chunk> {
    if deltas == [] then []
    else Fragments(deltas[..|deltas| - 1]) + ListOf(deltas[|deltas| - 1])
  }

  predicate AllLists(deltas: seq<Delta>) {
    forall i :: 0 <= i < |deltas| ==> !deltas[i].calls.NotAList?
  }

  lemma {:induction false} TakeMore(a: Accumulator, x: seq<Chunk>, y: seq<Chunk>)
    ensures TakeAll(a, x).1 ==> TakeAll(a, x + y) == TakeAll(TakeAll(a, x).0, y)
    ensures !TakeAll(a, x).1 ==> !TakeAll(a, x + y).1
    decreases |x|
  {
    if x == [] {
      assert x + y == y;
    } else {
      assert (x + y)[1..] == x[1..] + y;
      TakeMore(TakeChunk(a, x[0]).0, x[1..], y);
    }
  }

  function ListOf(d: Delta): seq<Chunk> {
    if d.calls.Calls? then d.calls.chunks else []
  }

  /** The fragments `all` were all valid and spell the call, or the call was given up. */
  predicate Spells(p: Progress, all: seq<Chunk>, lists: bool) {
    && (!p.broken <==> TakeAll(NO_CALL, all).1 && lists)
    && (!p.broken ==> p.call == TakeAll(NO_CALL, all).0)
  }

  lemma ContentKeepsCall(low: Lower, p: Progress, content: string)
    ensures WithContent(low, p, content).call == p.call && WithContent(low, p, content).broken == p.broken
  {
  }

  lemma CallsSpell(p: Progress, all: seq<Chunk>, lists: bool, d: Delta)
    requires Spells(p, all, lists) && WithCalls(p, d.calls).error.None?
    requires p.error.None?
    ensures Spells(WithCalls(p, d.calls), all + ListOf(d), lists && !d.calls.NotAList?)
  {
    TakeMore(NO_CALL, all, ListOf(d));
    assert d.calls.NoCalls? ==> all + ListOf(d) == all;
  }

  lemma DeltaSpells(low: Lower, p: Progress, all: seq<Chunk>, lists: bool, d: Delta)
    requires Spells(p, all, lists) && p.error.None? && WithDelta(low, p, d).error.None?
    ensures Spells(WithDelta(low, p, d), all + ListOf(d), lists && !d.calls.NotAList?)
  {
    CallsSpell(p, all, lists, d);
    ContentKeepsCall(low, WithCalls(p, d.calls), d.content);
  }

  lemma LastIsList(deltas: seq<Delta>)
    requires deltas != []
    ensures AllLists(deltas) <==> AllLists(deltas[..|deltas| - 1]) && !deltas[|deltas| - 1].calls.NotAList?
  {
  }

  /** While all fragments are valid the call is what they spell together; otherwise it is given up. */
  lemma {:induction false} CallIsAccumulated(low: Lower, deltas: seq<Delta>)
    requires After(low, deltas).error.None?
    ensures Spells(After(low, deltas), Fragments(deltas), AllLists(deltas))
    decreases |deltas|
  {
    if deltas == [] {
    } else {
      var front, d := deltas[..|deltas| - 1], deltas[|deltas| - 1];
      CallIsAccumulated(low, front);
      DeltaSpells(low, After(low, front), Fragments(front), AllLists(front), d);
      LastIsList(deltas);
    }
  }

  lemma {:induction false} BrokenSpoke(low: Lower, deltas: seq<Delta>)
    ensures After(low, deltas).broken ==> After(low, deltas).texts != []
    decreases |deltas|
  {
    if deltas == [] {
    } else {
      BrokenSpoke(low, deltas[..|deltas| - 1]);
    }
  }

  /** Before any text a bad fragment fails the stream. */
  lemma BadCallFails(low: Lower, deltas: seq<Delta>, d: Delta)
    requires After(low, deltas).error.None? && After(low, deltas).texts == []
    requires !(TakeAll(NO_CALL, Fragments(deltas + [d])).1 && AllLists(deltas + [d]))
    ensures After(low, deltas + [d]).error == Some(InvalidCall)
  {
    var all := deltas + [d];
    assert all[..|deltas|] == deltas;
    CallIsAccumulated(low, deltas);
    BrokenSpoke(low, deltas);
    LastIsList(all);
    TakeMore(NO_CALL, Fragments(deltas), ListOf(d));
  }

  /**
   The call is emitted exactly when its fragments are valid and it passes validation; a
   stream without one fails when it has said nothing and its call is refused, or when a
   call was required and none appeared.
   */
  lemma CallIsEmitted(low: Lower, deltas: seq<Delta>, finish: Accumulator -> Option<Output>, mustCall: bool)
    requires After(low, deltas).error.None?
    ensures var (outputs, r) := Ended(After(low, deltas), finish, mustCall);
            var all := TakeAll(NO_CALL, Fragments(deltas));
            var spoken := Spoken(After(low, deltas).texts);
            var called := all.1 && AllLists(deltas) && all.0.index.Some?;
            if called && finish(all.0).Some?
            then outputs == spoken + [finish(all.0).value] && r == Pass
            else
              && outputs == spoken
              && (r == Pass || r == Raised(InvalidCall))
              && (r == Raised(InvalidCall) <==>
                    (called && spoken == []) || (mustCall && After(low, deltas).call.index.None?))
  {
    CallIsAccumulated(low, deltas);
    BrokenSpoke(low, deltas);
  }

  // ---- The end of the stream ----

  datatype Output = Text(text: string) | Call(name: string, arguments: string)

  function Spoken(texts: seq<string>): seq<Output> {
    seq(|texts|, i requires 0 <= i < |texts| => Text(texts[i]))
  }

  /** The outputs and the outcome, given what validating the accumulated call says. */
  function Ended(p: Progress, finish: Accumulator -> Option<Output>, mustCall: bool)
    : (seq<Output>, Outcome<StreamError>)
  {
    var texts := Spoken(p.texts);
    if p.error.Some? then (texts, Raised(p.error.value))
    else if p.call.index.Some? && !p.broken then
      match finish(p.call)
      case Some(call) => (texts + [call], Pass)
      case None => if p.texts != [] then (texts, Pass) else (texts, Raised(InvalidCall))
    else if mustCall && p.call.index.None? then (texts, Raised(InvalidCall))
    else (texts, Pass)
  }

  /** All text comes before the call, of which there is at most one; spoken text is never failed by a bad call. */
  lemma TextBeforeCall(low: Lower, deltas: seq<Delta>, finish: Accumulator -> Option<Output>, mustCall: bool)
    requires forall a {:trigger finish(a)} :: finish(a).Some? ==> finish(a).value.Call?
    ensures var (outputs, r) := Ended(After(low, deltas), finish, mustCall);
            && (forall i :: 0 <= i < |outputs| && outputs[i].Call? ==> i == |outputs| - 1)
            && (forall i :: 0 <= i < |outputs| && outputs[i].Text? ==> outputs[i].text != "")
            && (r == Raised(InvalidCall) && outputs != [] ==> mustCall && After(low, deltas).call.index.None?)
  {
    var p := After(low, deltas);
    SpokenTextSurvives(low, deltas);
    assert forall i :: 0 <= i < |p.texts| ==> p.texts[i] in p.texts;
    var call := finish(p.call);
  }

  class ToolCallAccumulator {
    var index: Option<int>
    var callId: Option<string>
    var name: string
    var arguments: string

    function View(): Accumulator
      reads this
    {
      Accumulator(index, callId, name, arguments)
    }

    constructor ()
      ensures View() == NO_CALL
    {
      index, callId, name, arguments := None, None, "", "";
    }

    method Push(calls: Calls) returns (ok: bool)
      modifies this
      ensures (View(), ok) == TakeCalls(old(View()), calls)
    {
      if calls.NoCalls? {
        return true;
      }
      if calls.NotAList? {
        return false;
      }
      var i := 0;
      ok := true;
      while i < |calls.chunks|
        invariant i <= |calls.chunks|
        invariant TakeAll(View(), calls.chunks[i..]) == TakeAll(old(View()), calls.chunks)
      {
        assert calls.chunks[i..][1..] == calls.chunks[i + 1..];
        ok := PushChunk(calls.chunks[i]);
        if !ok {
          return;
        }
        i := i + 1;
      }
    }

    method PushChunk(c: Chunk) returns (ok: bool)
      modifies this
      ensures (View(), ok) == TakeChunk(old(View()), c)
    {
      if c.Unreadable? || c.index < 0 {
        return false;
      }
      if index.None? {
        index := Some(c.index);
      } else if index.value != c.index {
        return false;
      }
      if !c.id.Absent? {
        if c.id.NotText? {
          return false;
        }
        if callId.Some? && c.id.text != callId.value {
          return false;
        }
        callId := Some(c.id.text);
      }
      if c.body.BadFunction? {
        return false;
      }
      name := name + c.body.name;
      arguments := arguments + c.body.arguments;
      ok := |arguments| <= MAX_ARGUMENTS;
    }
  }

  /** Takes one delta of the stream; `p` is the progress so far. */
  method HandleDelta(filter: VisibleTextFilter, call: ToolCallAccumulator, before: bool, sent: seq<Output>,
                     d: Delta, ghost p: Progress)
    returns (broken: bool, outputs: seq<Output>, error: Option<StreamError>)
    requires p.error.None? && Spoken(p.texts) == sent
    requires p.call == call.View() && p.broken == before && p.filter == filter.View()
    modifies filter, call
    ensures var next := WithDelta(filter.low, p, d);
            && next.error == error && Spoken(next.texts) == outputs
            && (error.None? ==> next.call == call.View() && next.broken == broken && next.filter == filter.View())
  {
    broken, outputs, error := before, sent, None;
    if !d.calls.NoCalls? && !broken {
      var ok := call.Push(d.calls);
      if !ok {
        if outputs == [] {
          error := Some(InvalidCall);
          return;
        }
        broken := true;
      }
    }
    if !d.reasoning {
      var visible := filter.Push(d.content);
      if visible.Err? {
        error := Some(Leaked);
        return;
      }
      if visible.value != "" && call.index.None? {
        outputs := outputs + [Text(visible.value)];
      }
    }
  }

  /** One generation; `finish` validates the accumulated call. */
  method StreamResponse(low: Lower, deltas: seq<Delta>, finish: Accumulator -> Option<Output>, mustCall: bool)
    returns (outputs: seq<Output>, r: Outcome<StreamError>)
    ensures (outputs, r) == Ended(After(low, deltas), finish, mustCall)
  {
    outputs := [];
    var filter := new VisibleTextFilter(low);
    var call := new ToolCallAccumulator();
    var broken, i := false, 0;
    while i < |deltas|
      invariant i <= |deltas| && filter.low == low && fresh(filter) && fresh(call)
      invariant var p := After(low, deltas[..i]);
                && p.error.None? && Spoken(p.texts) == outputs
                && p.call == call.View() && p.broken == broken && p.filter == filter.View()
    {
      ghost var p := After(low, deltas[..i]);
      assert deltas[..i + 1][..i] == deltas[..i];
      var error;
      broken, outputs, error := HandleDelta(filter, call, broken, outputs, deltas[i], p);
      i := i + 1;
      if error.Some? {
        FailedStays(low, deltas, i);
        return outputs, Raised(error.value);
      }
    }
    assert deltas[..i] == deltas;
    if call.index.Some? && !broken {
      var finished := finish(call.View());
      if finished.Some? {
        outputs := outputs + [finished.value];
      } else if outputs == [] {
        return outputs, Raised(InvalidCall);
      }
    } else if mustCall && call.index.None? {
      return outputs, Raised(InvalidCall);
    }
    r := Pass;
  }

  /** After an error nothing more happens. */
  lemma {:induction false} FailedStays(low: Lower, deltas: seq<Delta>, i: nat)
    requires i <= |deltas| && After(low, deltas[..i]).error.Some?
    ensures After(low, deltas) == After(low, deltas[..i])
    decreases |deltas|
  {
    if i == |deltas| {
      assert deltas[..i] == deltas;
    } else {
      assert deltas[..|deltas| - 1][..i] == deltas[..i];
      FailedStays(low, deltas[..|deltas| - 1], i);
    }
  }
}
