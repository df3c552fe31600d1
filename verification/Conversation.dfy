/**
 The bounded conversation of a session (conversation.py).

 Main results: the conversation kept online is the longest suffix of the whole accepted
 history that fits both limits (`KeptIsLongestSuffix`), the newest group always stays
 (`NewestStays`), retained call ids are distinct (`CallIdsStayDistinct`), and in the
 message list every tool message directly follows the call it answers
 (`ToolMessagesFollowCalls`).
 */
module Conversations {
  import opened Options

  datatype Role = User | Assistant

  /** What ties an output to its call. */
  datatype Correlation = Correlation(turnId: string, turnRevision: int, generationId: string, responseId: string)

  datatype FunctionCall = FunctionCall(callId: string, name: string, arguments: string, origin: Correlation)

  datatype FunctionOutput = FunctionOutput(
    callId: string,
    name: string,
    output: string,
    isError: bool,
    origin: Correlation)

  datatype Group =
    | Entry(role: Role, content: string)
    | Exchange(call: FunctionCall, output: FunctionOutput)
  {
    function Items(): nat {
      if Entry? then 1 else 2
    }

    function Characters(): nat {
      if Entry? then |content| else |call.arguments| + |output.output|
    }
  }

  datatype Rejection =
    | EmptyContent
    | ItemTooLong
    | Mismatch
    | CorrelationMismatch
    | AlreadyCommitted
    | GroupTooLarge
    | LimitsNotPositive

  datatype Limits = Limits(items: nat, characters: nat)

  function Items(groups: seq<Group>): nat {
    if groups == [] then 0 else groups[0].Items() + Items(groups[1..])
  }

  function Characters(groups: seq<Group>): nat {
    if groups == [] then 0 else groups[0].Characters() + Characters(groups[1..])
  }

  predicate Fits(l: Limits, groups: seq<Group>) {
    Items(groups) <= l.items && Characters(groups) <= l.characters
  }

  /** The longest suffix within the limits. */
  function Trimmed(l: Limits, groups: seq<Group>): seq<Group> {
    if Fits(l, groups) || groups == [] then groups else Trimmed(l, groups[1..])
  }

  function Suffix(groups: seq<Group>, i: nat): seq<Group>
    requires i <= |groups|
  {
    groups[i..]
  }

  /** `kept` is a suffix that fits, and every longer suffix does not. */
  predicate LongestFitting(l: Limits, history: seq<Group>, kept: seq<Group>) {
    && |kept| <= |history| && kept == Suffix(history, |history| - |kept|) && Fits(l, kept)
    && forall i :: 0 <= i < |history| - |kept| ==> !Fits(l, Suffix(history, i))
  }

  lemma {:induction false} TrimmedIsLongest(l: Limits, groups: seq<Group>)
    ensures LongestFitting(l, groups, Trimmed(l, groups))
    decreases |groups|
  {
    if !Fits(l, groups) {
      TrimmedIsLongest(l, groups[1..]);
      forall i | 0 < i <= |groups|
        ensures Suffix(groups[1..], i - 1) == Suffix(groups, i)
      {
      }
      assert Suffix(groups, 0) == groups;
      forall i | 0 <= i < |groups| - |Trimmed(l, groups)|
        ensures !Fits(l, Suffix(groups, i))
      {
        if i > 0 {
          assert !Fits(l, Suffix(groups[1..], i - 1));
        }
      }
    } else {
      assert Suffix(groups, 0) == groups;
    }
  }

  lemma {:induction false} SumsAppend(a: seq<Group>, b: seq<Group>)
    ensures Items(a + b) == Items(a) + Items(b) && Characters(a + b) == Characters(a) + Characters(b)
    decreases |a|
  {
    if a == [] {
      assert a + b == b;
    } else {
      assert (a + b)[1..] == a[1..] + b;
      SumsAppend(a[1..], b);
    }
  }

  /** Trimming what was kept, with the next group, is trimming the whole history. */
  lemma {:induction false} TrimOnline(l: Limits, history: seq<Group>, g: Group)
    ensures Trimmed(l, Trimmed(l, history) + [g]) == Trimmed(l, history + [g])
    decreases |history|
  {
    if history != [] && !Fits(l, history) {
      SumsAppend(history, [g]);
      assert (history + [g])[1..] == history[1..] + [g];
      TrimOnline(l, history[1..], g);
    }
  }

  /** A group that fits on its own survives its own trimming. */
  lemma {:induction false} NewestStays(l: Limits, groups: seq<Group>, g: Group)
    requires Fits(l, [g])
    ensures Trimmed(l, groups + [g]) != [] && Trimmed(l, groups + [g])[|Trimmed(l, groups + [g])| - 1] == g
    decreases |groups|
  {
    if groups == [] {
      assert groups + [g] == [g];
    } else if !Fits(l, groups + [g]) {
      assert (groups + [g])[1..] == groups[1..] + [g];
      NewestStays(l, groups[1..], g);
    }
  }

  // ---- Accepting groups ----

  predicate Fitting(l: Limits, g: Group) {
    g.Items() <= l.items && g.Characters() <= l.characters
  }

  predicate HasCall(groups: seq<Group>, id: string) {
    exists i :: 0 <= i < |groups| && groups[i].Exchange? && groups[i].call.callId == id
  }

  /** What a client of the conversation may ask to append. */
  datatype Request = Say(role: Role, content: string) | Commit(call: FunctionCall, output: FunctionOutput)

  /** The group a request appends, or why it is turned down. `strip` removes surrounding whitespace. */
  function Admit(l: Limits, strip: string -> string, groups: seq<Group>, q: Request): Result<Group, Rejection> {
    match q
    case Say(role, content) =>
      var text := strip(content);
      if text == "" then Err(EmptyContent)
      else if |text| > l.characters then Err(ItemTooLong)
      else Sized(l, Entry(role, text))
    case Commit(call, output) =>
      if call.callId != output.callId || call.name != output.name then Err(Mismatch)
      else if call.origin != output.origin then Err(CorrelationMismatch)
      else if HasCall(groups, call.callId) then Err(AlreadyCommitted)
      else Sized(l, Exchange(call, output))
  }

  function Sized(l: Limits, g: Group): Result<Group, Rejection> {
    if Fitting(l, g) then Ok(g) else Err(GroupTooLarge)
  }

  function Append(l: Limits, strip: string -> string, groups: seq<Group>, q: Request): seq<Group> {
    match Admit(l, strip, groups, q)
    case Ok(g) => Trimmed(l, groups + [g])
    case Err(_) => groups
  }

  /** All groups accepted by a run of requests, and what is kept of them. */
  function Run(l: Limits, strip: string -> string, requests: seq<Request>): (seq<Group>, seq<Group>) {
    if requests == [] then ([], [])
    else
      var (history, kept) := Run(l, strip, requests[..|requests| - 1]);
      match Admit(l, strip, kept, requests[|requests| - 1])
      case Ok(g) => (history + [g], Trimmed(l, kept + [g]))
      case Err(_) => (history, kept)
  }

  /** The conversation is the longest suffix of everything accepted that fits both limits. */
  lemma {:induction false} KeptIsLongestSuffix(l: Limits, strip: string -> string, requests: seq<Request>)
    ensures var (history, kept) := Run(l, strip, requests);
            kept == Trimmed(l, history) && LongestFitting(l, history, kept)
    decreases |requests|
  {
    var (history, kept) := Run(l, strip, requests);
    if requests != [] {
      var before := requests[..|requests| - 1];
      KeptIsLongestSuffix(l, strip, before);
      var (older, had) := Run(l, strip, before);
      var admitted := Admit(l, strip, had, requests[|requests| - 1]);
      if admitted.Ok? {
        TrimOnline(l, older, admitted.value);
      }
    }
    TrimmedIsLongest(l, history);
  }

  /** The group a request asks for. */
  function Asked(strip: string -> string, q: Request): Group {
    match q
    case Say(role, content) => Entry(role, strip(content))
    case Commit(call, output) => Exchange(call, output)
  }

  /** Exactly the requests that are accepted. */
  predicate Acceptable(l: Limits, strip: string -> string, kept: seq<Group>, q: Request) {
    match q
    case Say(_, content) => strip(content) != "" && |strip(content)| <= l.characters && l.items >= 1
    case Commit(call, output) =>
      && call.callId == output.callId && call.name == output.name && call.origin == output.origin
      && (forall i :: 0 <= i < |kept| && kept[i].Exchange? ==> kept[i].call.callId != call.callId)
      && l.items >= 2 && |call.arguments| + |output.output| <= l.characters
  }

  /** An accepted request adds the group it asks for as the newest; any other changes nothing. */
  lemma AcceptedIsNewest(l: Limits, strip: string -> string, requests: seq<Request>, q: Request)
    ensures var (history, kept) := Run(l, strip, requests);
            var (history', kept') := Run(l, strip, requests + [q]);
            if Acceptable(l, strip, kept, q) then
              && history' == history + [Asked(strip, q)]
              && kept' != [] && kept'[|kept'| - 1] == Asked(strip, q)
            else history' == history && kept' == kept
  {
    assert (requests + [q])[..|requests|] == requests;
    var kept := Run(l, strip, requests).1;
    if Acceptable(l, strip, kept, q) {
      var g := Asked(strip, q);
      assert Items([g]) == g.Items() + Items([]) && Characters([g]) == g.Characters() + Characters([]);
      NewestStays(l, kept, g);
    }
  }

  /** Which refusal answers a request. */
  lemma RefusalIs(l: Limits, strip: string -> string, kept: seq<Group>, q: Request)
    ensures Admit(l, strip, kept, q).Ok? <==> Acceptable(l, strip, kept, q)
    ensures q.Say? ==> (Admit(l, strip, kept, q) == Err(EmptyContent) <==> strip(q.content) == "")
    ensures q.Say? && strip(q.content) != "" ==>
              (Admit(l, strip, kept, q) == Err(ItemTooLong) <==> |strip(q.content)| > l.characters)
    ensures q.Commit? ==>
              (Admit(l, strip, kept, q) == Err(Mismatch) <==>
                 q.call.callId != q.output.callId || q.call.name != q.output.name)
    ensures q.Commit? && q.call.callId == q.output.callId && q.call.name == q.output.name ==>
              (Admit(l, strip, kept, q) == Err(CorrelationMismatch) <==> q.call.origin != q.output.origin)
    ensures q.Commit? && Matched(Exchange(q.call, q.output)) ==>
              (Admit(l, strip, kept, q) == Err(AlreadyCommitted) <==>
                 exists i :: 0 <= i < |kept| && kept[i].Exchange? && kept[i].call.callId == q.call.callId)
  {
  }

  predicate Matched(g: Group) {
    g.Exchange? ==> g.call.callId == g.output.callId && g.call.name == g.output.name && g.call.origin == g.output.origin
  }

  /** No call id occurs in two retained exchanges, and outputs answer their calls. */
  predicate Distinct(groups: seq<Group>) {
    && (forall i :: 0 <= i < |groups| ==> Matched(groups[i]))
    && (forall i, j :: 0 <= i < j < |groups| && groups[i].Exchange? && groups[j].Exchange? ==>
          groups[i].call.callId != groups[j].call.callId)
  }

  lemma {:induction false} TrimmedDistinct(l: Limits, groups: seq<Group>)
    requires Distinct(groups)
    ensures Distinct(Trimmed(l, groups))
    decreases |groups|
  {
    if !Fits(l, groups) && groups != [] {
      TrimmedDistinct(l, groups[1..]);
    }
  }

  lemma AdmitDistinct(l: Limits, strip: string -> string, groups: seq<Group>, q: Request)
    requires Distinct(groups) && Admit(l, strip, groups, q).Ok?
    ensures Distinct(groups + [Admit(l, strip, groups, q).value])
  {
  }

  lemma {:induction false} CallIdsStayDistinct(l: Limits, strip: string -> string, requests: seq<Request>)
    ensures Distinct(Run(l, strip, requests).1)
    decreases |requests|
  {
    if requests == [] {
    } else {
      var before := requests[..|requests| - 1];
      CallIdsStayDistinct(l, strip, before);
      var had, q := Run(l, strip, before).1, requests[|requests| - 1];
      if Admit(l, strip, had, q).Ok? {
        AdmitDistinct(l, strip, had, q);
        TrimmedDistinct(l, had + [Admit(l, strip, had, q).value]);
      }
    }
  }

  // ---- Messages for the model ----

  datatype Message =
    | Text(role: Role, content: string)
    | ToolCall(callId: string, name: string, arguments: string)
    | ToolOutput(callId: string, name: string, output: string, isError: bool)

  function Rendered(g: Group): seq<Message> {
    match g
    case Entry(role, content) => [Text(role, content)]
    case Exchange(call, output) =>
      [ToolCall(call.callId, call.name, call.arguments),
       ToolOutput(call.callId, call.name, output.output, output.isError)]
  }

  function Messages(groups: seq<Group>): seq<Message> {
    if groups == [] then [] else Messages(groups[..|groups| - 1]) + Rendered(groups[|groups| - 1])
  }

  predicate Answers(messages: seq<Message>, call: int, answer: int) {
    && 0 <= call < answer < |messages| && messages[call].ToolCall? && messages[answer].ToolOutput?
    && messages[call].callId == messages[answer].callId && messages[call].name == messages[answer].name
  }

  predicate PairedAt(messages: seq<Message>, i: nat)
    requires i < |messages|
  {
    && (messages[i].ToolOutput? ==> Answers(messages, i - 1, i))
    && (messages[i].ToolCall? ==> Answers(messages, i, i + 1))
  }

  /** Each tool message directly follows the call with its id and name; each call is directly followed by its answer. */
  predicate Paired(messages: seq<Message>) {
    forall i :: 0 <= i < |messages| ==> PairedAt(messages, i)
  }

  lemma PairedAppend(messages: seq<Message>, g: Group)
    requires Paired(messages)
    ensures Paired(messages + Rendered(g))
  {
    var all := messages + Rendered(g);
    forall i | 0 <= i < |all|
      ensures PairedAt(all, i)
    {
      if i < |messages| {
        assert PairedAt(messages, i);
      }
    }
  }

  lemma {:induction false} ToolMessagesFollowCalls(groups: seq<Group>)
    ensures Paired(Messages(groups)) && |Messages(groups)| == Items(groups)
    decreases |groups|
  {
    if groups == [] {
    } else {
      var before, last := groups[..|groups| - 1], groups[|groups| - 1];
      ToolMessagesFollowCalls(before);
      PairedAppend(Messages(before), last);
      SumsAppend(before, [last]);
      assert groups == before + [last];
      assert Items([last]) == last.Items() + Items([]);
    }
  }

  /** The i-th group appears in the messages, at the place given by the groups before it, as it is. */
  lemma {:induction false} MessagesShowGroups(groups: seq<Group>, i: nat)
    requires i < |groups|
    ensures var m, at := Messages(groups), Items(groups[..i]);
            match groups[i]
            case Entry(role, content) => at < |m| && m[at] == Text(role, content)
            case Exchange(call, output) =>
              && at + 1 < |m|
              && m[at] == ToolCall(call.callId, call.name, call.arguments)
              && m[at + 1] == ToolOutput(call.callId, call.name, output.output, output.isError)
    decreases |groups|
  {
    var n := |groups| - 1;
    ToolMessagesFollowCalls(groups[..n]);
    if i == n {
      assert groups[..i] == groups[..n];
    } else {
      MessagesShowGroups(groups[..n], i);
      assert groups[..n][..i] == groups[..i];
    }
  }

  class Conversation {
    const limits: Limits
    const strip: string -> string
    var groups: seq<Group>
    var items: int
    var characters: int

    predicate Valid()
      reads this
    {
      && limits.items >= 1 && limits.characters >= 1
      && items == Items(groups) && characters == Characters(groups) && Fits(limits, groups)
      && Distinct(groups)
    }

    constructor (limits: Limits, strip: string -> string)
      requires limits.items >= 1 && limits.characters >= 1
      ensures Valid() && groups == [] && this.limits == limits && this.strip == strip
    {
      this.limits, this.strip := limits, strip;
      groups, items, characters := [], 0, 0;
    }

    static method Create(maxMessages: int, maxCharacters: int, strip: string -> string)
      returns (r: Result<Conversation, Rejection>)
      ensures r.Ok? <==> maxMessages >= 1 && maxCharacters >= 1
      ensures r.Ok? ==> fresh(r.value) && r.value.Valid() && r.value.groups == []
                        && r.value.limits == Limits(maxMessages, maxCharacters) && r.value.strip == strip
      ensures r.Err? ==> r.error == LimitsNotPositive
    {
      if maxMessages < 1 || maxCharacters < 1 {
        return Err(LimitsNotPositive);
      }
      var conversation := new Conversation(Limits(maxMessages, maxCharacters), strip);
      r := Ok(conversation);
    }

    method AppendMessage(role: Role, content: string) returns (r: Outcome<Rejection>)
      requires Valid()
      modifies this
      ensures Valid()
      ensures groups == Append(limits, strip, old(groups), Say(role, content))
      ensures r.Pass? ==> groups != [] && groups[|groups| - 1] == Entry(role, strip(content))
      ensures r.Raised? ==> groups == old(groups)
      ensures r == match Admit(limits, strip, old(groups), Say(role, content))
                   case Ok(_) => Pass
                   case Err(e) => Raised(e)
    {
      var normalized := strip(content);
      if normalized == "" {
        return Raised(EmptyContent);
      }
      if |normalized| > limits.characters {
        return Raised(ItemTooLong);
      }
      r := AppendGroup(Entry(role, normalized));
    }

    method CommitToolExchange(call: FunctionCall, output: FunctionOutput) returns (r: Outcome<Rejection>)
      requires Valid()
      modifies this
      ensures Valid()
      ensures groups == Append(limits, strip, old(groups), Commit(call, output))
      ensures r.Pass? ==> groups != [] && groups[|groups| - 1] == Exchange(call, output)
      ensures r.Raised? ==> groups == old(groups)
      ensures r == match Admit(limits, strip, old(groups), Commit(call, output))
                   case Ok(_) => Pass
                   case Err(e) => Raised(e)
    {
      if call.callId != output.callId || call.name != output.name {
        return Raised(Mismatch);
      }
      if call.origin != output.origin {
        return Raised(CorrelationMismatch);
      }
      if HasCall(groups, call.callId) {
        return Raised(AlreadyCommitted);
      }
      r := AppendGroup(Exchange(call, output));
    }

    method AppendGroup(g: Group) returns (r: Outcome<Rejection>)
      requires Valid() && Distinct(groups + [g])
      modifies this
      ensures Valid()
      ensures r == if Fitting(limits, g) then Pass else Raised(GroupTooLarge)
      ensures groups == if Fitting(limits, g) then Trimmed(limits, old(groups) + [g]) else old(groups)
      ensures r.Pass? ==> groups != [] && groups[|groups| - 1] == g
    {
      if g.Items() > limits.items || g.Characters() > limits.characters {
        return Raised(GroupTooLarge);
      }
      SumsAppend(groups, [g]);
      assert Items([g]) == g.Items() + Items([]) && Characters([g]) == g.Characters() + Characters([]);
      NewestStays(limits, groups, g);
      groups := groups + [g];
      items := items + g.Items();
      characters := characters + g.Characters();
      Trim();
      r := Pass;
    }

    method Trim()
      requires limits.items >= 1 && limits.characters >= 1
      requires items == Items(groups) && characters == Characters(groups) && Distinct(groups)
      modifies this
      ensures Valid() && groups == Trimmed(limits, old(groups))
    {
      while items > limits.items || characters > limits.characters
        invariant items == Items(groups) && characters == Characters(groups) && Distinct(groups)
        invariant Trimmed(limits, groups) == Trimmed(limits, old(groups))
        decreases |groups|
      {
        var removed := groups[0];
        groups := groups[1..];
        items := items - removed.Items();
        characters := characters - removed.Characters();
      }
    }

    method MessageList() returns (messages: seq<Message>)
      requires Valid()
      ensures messages == Messages(groups) && Paired(messages) && |messages| <= limits.items
    {
      messages := [];
      var i := 0;
      while i < |groups|
        invariant i <= |groups|
        invariant messages == Messages(groups[..i])
      {
        assert groups[..i + 1][..i] == groups[..i];
        messages := messages + Rendered(groups[i]);
        i := i + 1;
      }
      assert groups[..i] == groups;
      ToolMessagesFollowCalls(groups);
    }

    method Clear()
      requires Valid()
      modifies this
      ensures Valid() && groups == []
    {
      groups := [];
      items := 0;
      characters := 0;
    }
  }
}
