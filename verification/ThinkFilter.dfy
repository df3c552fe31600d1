/**
 Hiding a model's reasoning from its streamed answer (runtimes/llama_cpp_chat.py,
 `_VisibleTextFilter`).

 Lower case is a parameter that maps single characters, so it keeps lengths. Main
 results: `ChunkingIsIrrelevant` (the output for any chunks is the batch reading of the
 whole stream), and `LeakExactlyWhenOneChunkHoldsIt`: when a marker in visible text is
 reported, which does depend on the chunks.
 */
module ThinkFilter {
  import opened Options
  import T = TextSegmenter
  import S = Segmentation

  const OPEN := "<think>"
  const CLOSE := "</think>"
  const STRAY := "<think"

  type Lower = char -> char

  predicate Matches(low: Lower, s: string, m: string) {
    |s| == |m| && forall k :: 0 <= k < |m| ==> low(s[k]) == m[k]
  }

  /** `m` stands at position `i`, up to case. */
  predicate At(low: Lower, s: string, m: string, i: nat) {
    i + |m| <= |s| && Matches(low, s[i..i + |m|], m)
  }

  /** The first position of `m` from `i` on. */
  function Find(low: Lower, s: string, m: string, i: nat): (r: Option<nat>)
    requires i <= |s|
    ensures r.Some? ==> i <= r.value && r.value + |m| <= |s|
    decreases |s| - i
  {
    if At(low, s, m, i) then Some(i) else if i == |s| then None else Find(low, s, m, i + 1)
  }

  lemma {:induction false} FindFacts(low: Lower, s: string, m: string, i: nat)
    requires i <= |s|
    ensures var r := Find(low, s, m, i);
            && (r.Some? ==> At(low, s, m, r.value) && forall j :: i <= j < r.value ==> !At(low, s, m, j))
            && (r.None? ==> forall j :: i <= j ==> !At(low, s, m, j))
    decreases |s| - i
  {
    if !At(low, s, m, i) && i < |s| {
      FindFacts(low, s, m, i + 1);
    }
  }

  predicate Contains(low: Lower, s: string, m: string) {
    Find(low, s, m, 0).Some?
  }

  function Strip(s: string): string {
    s[T.SkipSpaces(s, 0)..]
  }

  // ---- The batch reading ----

  /** So far the text could still become an opening marker. */
  predicate Undecided(low: Lower, s: string) {
    var t := Strip(s);
    |t| <= |OPEN| && Matches(low, t, OPEN[..|t|])
  }

  predicate Opens(low: Lower, s: string) {
    At(low, Strip(s), OPEN, 0)
  }

  /** What follows the opening marker. */
  function Body(low: Lower, s: string): string
    requires Opens(low, s)
  {
    Strip(s)[|OPEN|..]
  }

  /** What follows the first closing marker. */
  function Rest(low: Lower, s: string): Option<string> {
    var closed := Find(low, s, CLOSE, 0);
    if closed.None? then None else Some(s[closed.value + |CLOSE|..])
  }

  /** The visible part of a whole stream. */
  function Batch(low: Lower, s: string): string {
    if Opens(low, s) then
      var rest := Rest(low, Body(low, s));
      if rest.Some? then rest.value else ""
    else if Undecided(low, s) then ""
    else s
  }

  // ---- Chunk by chunk ----

  datatype Mode = Start | Thinking | Visible

  datatype Filter = Filter(mode: Mode, buffer: string, detected: bool)

  const FRESH := Filter(Start, "", false)

  datatype Leak = ReasoningLeak

  /** The last seven characters, enough to recognize a closing marker that is cut. */
  function Carry(s: string): string {
    if |s| <= |CLOSE| - 1 then s else s[|s| - (|CLOSE| - 1)..]
  }

  function Think(low: Lower, f: Filter): (Filter, string) {
    match Rest(low, f.buffer)
    case None => (f.(buffer := Carry(f.buffer)), "")
    case Some(rest) => (f.(mode := Visible, buffer := ""), rest)
  }

  function PushOne(low: Lower, f: Filter, text: string): Result<(Filter, string), Leak> {
    if text == "" then Ok((f, ""))
    else if f.mode.Visible? then
      if Contains(low, text, STRAY) || Contains(low, text, CLOSE) then Err(ReasoningLeak) else Ok((f, text))
    else
      var buffer := f.buffer + text;
      if f.mode.Thinking? then Ok(Think(low, f.(buffer := buffer)))
      else if Undecided(low, buffer) then Ok((f.(buffer := buffer), ""))
      else if Opens(low, buffer) then Ok(Think(low, Filter(Thinking, Body(low, buffer), true)))
      else Ok((f.(mode := Visible, buffer := ""), buffer))
  }

  type Pusher = (Filter, string) -> Result<(Filter, string), Leak>

  /** Pushes chunk after chunk and joins what is shown. */
  function PushEach(push: Pusher, f: Filter, chunks: seq<string>): Result<(Filter, string), Leak>
    decreases |chunks|
  {
    if chunks == [] then Ok((f, ""))
    else
      match push(f, chunks[0])
      case Err(e) => Err(e)
      case Ok((next, now)) =>
        match PushEach(push, next, chunks[1..])
        case Err(e) => Err(e)
        case Ok((end, later)) => Ok((end, now + later))
  }

  function Pushing(low: Lower): Pusher {
    (f, text) => PushOne(low, f, text)
  }

  function PushAll(low: Lower, f: Filter, chunks: seq<string>): Result<(Filter, string), Leak> {
    PushEach(Pushing(low), f, chunks)
  }

  // ---- Growing streams ----

  lemma StripGrows(s: string, t: string)
    requires Strip(s) != ""
    ensures Strip(s + t) == Strip(s) + t
  {
    SkipGrows(s, t, 0);
  }

  lemma {:induction false} SkipGrows(s: string, t: string, i: nat)
    requires i <= |s| && T.SkipSpaces(s, i) < |s|
    ensures T.SkipSpaces(s + t, i) == T.SkipSpaces(s, i)
    decreases |s| - i
  {
    if T.IsSpace(s[i]) {
      SkipGrows(s, t, i + 1);
    }
  }

  lemma FindIsFirst(low: Lower, s: string, m: string, i: nat)
    requires At(low, s, m, i) && forall j :: 0 <= j < i ==> !At(low, s, m, j)
    ensures Find(low, s, m, 0) == Some(i)
  {
    FindFacts(low, s, m, 0);
  }

  lemma AtGrows(low: Lower, s: string, t: string, m: string, i: nat)
    requires i + |m| <= |s|
    ensures At(low, s + t, m, i) == At(low, s, m, i)
  {
    assert (s + t)[i..i + |m|] == s[i..i + |m|];
  }

  lemma AtShift(low: Lower, s: string, m: string, cut: nat, i: nat)
    requires cut <= |s|
    ensures At(low, s[cut..], m, i) == At(low, s, m, cut + i)
  {
    if cut + i + |m| <= |s| {
      assert s[cut..][i..i + |m|] == s[cut + i..cut + i + |m|];
    }
  }

  /** A first occurrence stays the first one. */
  lemma FindGrows(low: Lower, s: string, t: string, m: string)
    requires Find(low, s, m, 0).Some?
    ensures Find(low, s + t, m, 0) == Find(low, s, m, 0)
  {
    var i := Find(low, s, m, 0).value;
    FindFacts(low, s, m, 0);
    forall j | 0 <= j <= i
      ensures At(low, s + t, m, j) == At(low, s, m, j)
    {
      AtGrows(low, s, t, m, j);
    }
    FindIsFirst(low, s + t, m, i);
  }

  lemma OpensGrows(low: Lower, s: string, t: string)
    requires Opens(low, s)
    ensures Opens(low, s + t) && Body(low, s + t) == Body(low, s) + t
  {
    StripGrows(s, t);
    AtGrows(low, Strip(s), t, OPEN, 0);
  }

  /** The visible part has begun. */
  predicate Settled(low: Lower, s: string) {
    if Opens(low, s) then Rest(low, Body(low, s)).Some? else !Undecided(low, s)
  }

  lemma UndecidedShrinks(low: Lower, s: string, t: string)
    requires Strip(s) != "" && Undecided(low, s + t)
    ensures Undecided(low, s)
  {
    StripGrows(s, t);
    var a, b := Strip(s), Strip(s + t);
    forall k | 0 <= k < |a|
      ensures low(a[k]) == OPEN[k]
    {
      assert b[k] == a[k] && low(b[k]) == OPEN[..|b|][k];
    }
  }

  lemma PlainStays(low: Lower, s: string, t: string)
    requires !Opens(low, s) && !Undecided(low, s)
    ensures !Opens(low, s + t) && !Undecided(low, s + t)
  {
    if Undecided(low, s + t) {
      UndecidedShrinks(low, s, t);
    }
    StripGrows(s, t);
    if |Strip(s)| >= |OPEN| {
      AtGrows(low, Strip(s), t, OPEN, 0);
    } else if Opens(low, s + t) {
      ShortIsUndecided(low, s, t);
    }
  }

  lemma ShortIsUndecided(low: Lower, s: string, t: string)
    requires Strip(s) != "" && |Strip(s)| < |OPEN| && Opens(low, s + t)
    ensures Undecided(low, s)
  {
    StripGrows(s, t);
    var a, b := Strip(s), Strip(s + t);
    forall k | 0 <= k < |a|
      ensures low(a[k]) == OPEN[k]
    {
      assert b[..|OPEN|][k] == a[k];
    }
  }

  /** Once the visible part has begun, all that follows is visible. */
  lemma SettledGrows(low: Lower, s: string, t: string)
    requires Settled(low, s)
    ensures Settled(low, s + t) && Batch(low, s + t) == Batch(low, s) + t
  {
    if Opens(low, s) {
      OpensGrows(low, s, t);
      FindGrows(low, Body(low, s), t, CLOSE);
    } else {
      PlainStays(low, s, t);
    }
  }

  /** A search may skip a beginning in which nothing starts. */
  lemma {:induction false} FindSkips(low: Lower, s: string, m: string, i: nat, cut: nat)
    requires i <= cut <= |s| && forall j :: i <= j < cut ==> !At(low, s, m, j)
    ensures Find(low, s, m, i) == Find(low, s, m, cut)
    decreases cut - i
  {
    if i < cut {
      FindSkips(low, s, m, i + 1, cut);
    }
  }

  function Plus(r: Option<nat>, cut: nat): Option<nat> {
    if r.Some? then Some(cut + r.value) else None
  }

  lemma {:induction false} FindShifts(low: Lower, s: string, m: string, cut: nat, i: nat)
    requires cut + i <= |s|
    ensures Find(low, s, m, cut + i) == Plus(Find(low, s[cut..], m, i), cut)
    decreases |s| - i
  {
    AtShift(low, s, m, cut, i);
    if cut + i < |s| {
      FindShifts(low, s, m, cut, i + 1);
    }
  }

  lemma FindBehind(low: Lower, whole: string, m: string, cut: nat)
    requires cut <= |whole| && forall j :: 0 <= j < cut ==> !At(low, whole, m, j)
    ensures Find(low, whole, m, 0) == Plus(Find(low, whole[cut..], m, 0), cut)
  {
    FindSkips(low, whole, m, 0, cut);
    FindShifts(low, whole, m, cut, 0);
  }

  /** The carry of a longer text depends only on the carry so far. */
  lemma CarryGrows(body: string, text: string)
    ensures Carry(Carry(body) + text) == Carry(body + text)
  {
  }

  lemma RestBehind(low: Lower, whole: string, cut: nat)
    requires cut <= |whole| && forall j :: 0 <= j < cut ==> !At(low, whole, CLOSE, j)
    ensures Rest(low, whole[cut..]) == Rest(low, whole)
  {
    FindBehind(low, whole, CLOSE, cut);
    var near := Find(low, whole[cut..], CLOSE, 0);
    assert near.Some? ==> whole[cut..][near.value + |CLOSE|..] == whole[cut + near.value + |CLOSE|..];
  }

  /** The carry loses no closing marker: the search in carry and text finds the same one. */
  lemma CarrySuffices(low: Lower, body: string, text: string)
    requires Rest(low, body).None?
    ensures Rest(low, Carry(body) + text) == Rest(low, body + text)
  {
    var cut, whole := |body| - |Carry(body)|, body + text;
    NothingInFront(low, body, text, cut);
    RestBehind(low, whole, cut);
    assert Carry(body) + text == whole[cut..];
  }

  lemma NothingInFront(low: Lower, body: string, text: string, cut: nat)
    requires Rest(low, body).None? && (cut == 0 || cut + |CLOSE| <= |body| + 1)
    ensures forall j :: 0 <= j < cut ==> !At(low, body + text, CLOSE, j)
  {
    FindFacts(low, body, CLOSE, 0);
    forall j | 0 <= j < cut
      ensures !At(low, body + text, CLOSE, j)
    {
      AtGrows(low, body, text, CLOSE, j);
    }
  }

  // ---- Main results ----

  /** What the filter holds after it has read the stream `s`. */
  predicate Holds(low: Lower, f: Filter, s: string) {
    match f.mode
    case Start => f.buffer == s && Undecided(low, s)
    case Thinking => Opens(low, s) && Rest(low, Body(low, s)).None? && f.buffer == Carry(Body(low, s))
    case Visible => Settled(low, s)
  }

  predicate HasMarker(low: Lower, s: string) {
    Contains(low, s, STRAY) || Contains(low, s, CLOSE)
  }

  lemma FoundStays(low: Lower, a: string, b: string, c: string, m: string)
    requires Contains(low, b, m)
    ensures Contains(low, a + b + c, m)
  {
    var i := Find(low, b, m, 0).value;
    var whole, k := a + b + c, |a| + i;
    FindFacts(low, b, m, 0);
    assert whole[k..k + |m|] == b[i..i + |m|];
    FindFacts(low, whole, m, 0);
    assert At(low, whole, m, k);
  }

  lemma MarkerStays(low: Lower, a: string, b: string, c: string)
    requires HasMarker(low, b)
    ensures HasMarker(low, a + b + c)
  {
    FoundStays(low, a, b, c, if Contains(low, b, STRAY) then STRAY else CLOSE);
  }

  /** Looking for the closing marker in the carry and the new text. */
  lemma ThinkFollows(low: Lower, f: Filter, s: string, body: string, text: string)
    requires Opens(low, s) && Body(low, s) == body + text && Rest(low, body).None?
    requires f.mode.Thinking? && f.buffer == Carry(body) + text
    ensures Holds(low, Think(low, f).0, s) && Think(low, f).1 == Batch(low, s)
  {
    CarrySuffices(low, body, text);
    CarryGrows(body, text);
  }

  lemma StartFollows(low: Lower, f: Filter, s: string, text: string)
    requires f.mode.Start? && Holds(low, f, s) && text != ""
    ensures var (next, now) := PushOne(low, f, text).value;
            Holds(low, next, s + text) && now == Batch(low, s + text)
  {
    var whole := s + text;
    if !Undecided(low, whole) && Opens(low, whole) {
      var body := Body(low, whole);
      assert "" + body == body;
      ThinkFollows(low, Filter(Thinking, body, true), whole, "", body);
    }
  }

  lemma UndecidedShowsNothing(low: Lower, s: string)
    requires Undecided(low, s)
    ensures Batch(low, s) == ""
  {
  }

  /** One push shows exactly what the stream newly makes visible, or meets a marker in it. */
  lemma PushFollows(low: Lower, f: Filter, s: string, text: string)
    requires Holds(low, f, s)
    ensures match PushOne(low, f, text)
            case Ok((next, now)) => Holds(low, next, s + text) && Batch(low, s + text) == Batch(low, s) + now
            case Err(_) => f.mode.Visible? && HasMarker(low, text)
  {
    if text == "" {
      assert s + text == s;
    } else if f.mode.Visible? {
      SettledGrows(low, s, text);
    } else if f.mode.Thinking? {
      OpensGrows(low, s, text);
      ThinkFollows(low, f.(buffer := f.buffer + text), s + text, Body(low, s), text);
    } else {
      UndecidedShowsNothing(low, s);
      StartFollows(low, f, s, text);
    }
  }

  lemma LeakIsVisible(low: Lower, s: string, text: string, rest: string)
    requires Settled(low, s) && HasMarker(low, text)
    ensures HasMarker(low, Batch(low, s + text + rest))
  {
    SettledGrows(low, s, text);
    SettledGrows(low, s + text, rest);
    MarkerStays(low, Batch(low, s), text, rest);
  }

  /** Whatever follows, the reading is bad. */
  ghost predicate Doomed(batch: string -> string, bad: string -> bool, s: string) {
    forall rest :: bad(batch(s + rest))
  }

  /** What one push does is what the batch reading of the longer stream adds, or the reading is bad. */
  ghost predicate Keeps(push: Pusher, batch: string -> string, holds: (Filter, string) -> bool, bad: string -> bool,
                        f: Filter, s: string, text: string)
  {
    var pushed := push(f, text);
    if pushed.Ok? then holds(pushed.value.0, s + text) && batch(s + text) == batch(s) + pushed.value.1
    else Doomed(batch, bad, s + text)
  }

  ghost predicate Faithful(push: Pusher, batch: string -> string, holds: (Filter, string) -> bool,
                           bad: string -> bool)
  {
    forall f, s, text :: holds(f, s) ==> Keeps(push, batch, holds, bad, f, s, text)
  }

  lemma {:induction false} ChunksFollow(push: Pusher, batch: string -> string, holds: (Filter, string) -> bool,
                                        bad: string -> bool, f: Filter, s: string, chunks: seq<string>)
    requires Faithful(push, batch, holds, bad) && holds(f, s)
    ensures match PushEach(push, f, chunks)
            case Ok((_, shown)) => batch(s + S.Concat(chunks)) == batch(s) + shown
            case Err(_) => bad(batch(s + S.Concat(chunks)))
    decreases |chunks|
  {
    if chunks == [] {
      assert s + "" == s;
      assert batch(s) + "" == batch(s);
    } else {
      var text, rest := chunks[0], S.Concat(chunks[1..]);
      assert s + S.Concat(chunks) == s + text + rest;
      assert Keeps(push, batch, holds, bad, f, s, text);
      match push(f, text)
      case Ok((next, now)) =>
        ChunksFollow(push, batch, holds, bad, next, s + text, chunks[1..]);
        if PushEach(push, next, chunks[1..]).Ok? {
          var later := PushEach(push, next, chunks[1..]).value.1;
          assert batch(s) + (now + later) == (batch(s) + now) + later;
        }
      case Err(_) =>
    }
  }

  /** From the beginning of a stream of which nothing is shown yet. */
  lemma StreamFollows(push: Pusher, batch: string -> string, holds: (Filter, string) -> bool,
                      bad: string -> bool, f: Filter, chunks: seq<string>)
    requires Faithful(push, batch, holds, bad) && holds(f, "") && batch("") == ""
    ensures match PushEach(push, f, chunks)
            case Ok((_, shown)) => shown == batch(S.Concat(chunks))
            case Err(_) => bad(batch(S.Concat(chunks)))
  {
    ChunksFollow(push, batch, holds, bad, f, "", chunks);
    assert "" + S.Concat(chunks) == S.Concat(chunks);
  }

  function Batched(low: Lower): string -> string {
    s => Batch(low, s)
  }

  function Holding(low: Lower): (Filter, string) -> bool {
    (f, s) => Holds(low, f, s)
  }

  function Leaking(low: Lower): string -> bool {
    s => HasMarker(low, s)
  }

  lemma PushKeeps(low: Lower, f: Filter, s: string, text: string)
    requires Holds(low, f, s)
    ensures Keeps(Pushing(low), Batched(low), Holding(low), Leaking(low), f, s, text)
  {
    PushFollows(low, f, s, text);
    if PushOne(low, f, text).Err? {
      forall rest
        ensures HasMarker(low, Batch(low, (s + text) + rest))
      {
        LeakIsVisible(low, s, text, rest);
      }
    }
  }

  lemma PushIsFaithful(low: Lower)
    ensures Faithful(Pushing(low), Batched(low), Holding(low), Leaking(low))
  {
    forall f, s, text | Holding(low)(f, s)
      ensures Keeps(Pushing(low), Batched(low), Holding(low), Leaking(low), f, s, text)
    {
      PushKeeps(low, f, s, text);
    }
  }

  /**
   However a stream is cut: if its visible part holds no marker, the filter reports no
   leak; and whenever it reports none, it shows exactly the visible part.
   */
  lemma ChunkingIsIrrelevant(low: Lower, chunks: seq<string>)
    ensures var stream := S.Concat(chunks);
            match PushAll(low, FRESH, chunks)
            case Ok((_, shown)) => shown == Batch(low, stream)
            case Err(_) => HasMarker(low, Batch(low, stream))
  {
    PushIsFaithful(low);
    UndecidedShowsNothing(low, "");
    StreamFollows(Pushing(low), Batched(low), Holding(low), Leaking(low), FRESH, chunks);
  }

  // ---- What is reported as reasoning ----

  /** Reasoning is noticed exactly when the opening marker is behind the text so far. */
  predicate Noticed(low: Lower, f: Filter, s: string) {
    && (f.detected <==> Opens(low, s) && !Undecided(low, s))
    && (f.mode.Thinking? ==> f.detected)
  }

  lemma DecidedStays(low: Lower, s: string, t: string)
    requires !Undecided(low, s)
    ensures !Undecided(low, s + t) && (Opens(low, s + t) <==> Opens(low, s))
  {
    if Opens(low, s) {
      OpensGrows(low, s, t);
      if Undecided(low, s + t) {
        UndecidedShrinks(low, s, t);
      }
    } else {
      PlainStays(low, s, t);
    }
  }

  lemma PushNotices(low: Lower, f: Filter, s: string, text: string)
    requires Holds(low, f, s) && Noticed(low, f, s) && PushOne(low, f, text).Ok?
    ensures Noticed(low, PushOne(low, f, text).value.0, s + text)
  {
    if text == "" {
      assert s + text == s;
    } else if !f.mode.Start? {
      VisibleIsDecided(low, f, s);
      DecidedStays(low, s, text);
    }
  }

  lemma VisibleIsDecided(low: Lower, f: Filter, s: string)
    requires Holds(low, f, s) && Noticed(low, f, s) && !f.mode.Start?
    ensures !Undecided(low, s)
  {
  }

  ghost predicate KeptBy(push: Pusher, inv: (Filter, string) -> bool, f: Filter, s: string, text: string) {
    inv(f, s) && push(f, text).Ok? ==> inv(push(f, text).value.0, s + text)
  }

  ghost predicate Preserved(push: Pusher, inv: (Filter, string) -> bool) {
    forall f, s, text :: KeptBy(push, inv, f, s, text)
  }

  lemma {:induction false} ChunksPreserve(push: Pusher, inv: (Filter, string) -> bool, f: Filter, s: string,
                                          chunks: seq<string>)
    requires Preserved(push, inv) && inv(f, s) && PushEach(push, f, chunks).Ok?
    ensures inv(PushEach(push, f, chunks).value.0, s + S.Concat(chunks))
    decreases |chunks|
  {
    if chunks == [] {
      assert s + "" == s;
    } else {
      assert KeptBy(push, inv, f, s, chunks[0]);
      ChunksPreserve(push, inv, push(f, chunks[0]).value.0, s + chunks[0], chunks[1..]);
      assert s + S.Concat(chunks) == s + chunks[0] + S.Concat(chunks[1..]);
    }
  }

  function Noticing(low: Lower): (Filter, string) -> bool {
    (f, s) => Holds(low, f, s) && Noticed(low, f, s)
  }

  lemma NoticingIsPreserved(low: Lower)
    ensures Preserved(Pushing(low), Noticing(low))
  {
    forall f, s, text
      ensures KeptBy(Pushing(low), Noticing(low), f, s, text)
    {
      if Noticing(low)(f, s) && PushOne(low, f, text).Ok? {
        PushFollows(low, f, s, text);
        PushNotices(low, f, s, text);
      }
    }
  }

  /** Without a leak, reasoning is noticed exactly when the stream opens with more than the marker. */
  lemma DetectedExactly(low: Lower, chunks: seq<string>)
    requires PushAll(low, FRESH, chunks).Ok?
    ensures var stream := S.Concat(chunks);
            PushAll(low, FRESH, chunks).value.0.detected <==>
              At(low, Strip(stream), "<think>", 0) && |Strip(stream)| > 7
  {
    NoticingIsPreserved(low);
    ChunksPreserve(Pushing(low), Noticing(low), FRESH, "", chunks);
    assert "" + S.Concat(chunks) == S.Concat(chunks);
    var t := Strip(S.Concat(chunks));
    assert |t| == 7 && At(low, t, OPEN, 0) ==> t[..7] == t;
  }

  // ---- What the batch reading is ----

  lemma {:induction false} SkipLeading(ws: string, t: string, i: nat)
    requires i <= |ws| && (forall k :: 0 <= k < |ws| ==> T.IsSpace(ws[k])) && (t != "" ==> !T.IsSpace(t[0]))
    ensures T.SkipSpaces(ws + t, i) == |ws|
    decreases |ws| - i
  {
    if i == |ws| {
      assert t != "" ==> (ws + t)[i] == t[0];
    } else {
      assert (ws + t)[i] == ws[i];
      SkipLeading(ws, t, i + 1);
    }
  }

  predicate Leads(ws: string, t: string) {
    (forall k :: 0 <= k < |ws| ==> T.IsSpace(ws[k])) && (t != "" ==> !T.IsSpace(t[0]))
  }

  lemma StripLeading(ws: string, t: string)
    requires Leads(ws, t)
    ensures Strip(ws + t) == t
  {
    SkipLeading(ws, t, 0);
  }

  /** A closed thought is hidden, with its markers and the whitespace before it; the rest is visible. */
  lemma BatchOfThought(low: Lower, ws: string, open: string, thought: string, close: string, rest: string)
    requires Leads(ws, open) && Matches(low, open, "<think>") && Matches(low, close, "</think>")
    requires forall j :: 0 <= j < |thought| ==> !At(low, thought + close + rest, "</think>", j)
    ensures Batch(low, ws + (open + (thought + close + rest))) == rest
  {
    var body := thought + close + rest;
    var t := open + body;
    assert t[..|open|] == open && t[0] == open[0];
    StripLeading(ws, t);
    assert t[|OPEN|..] == body;
    assert body[|thought|..|thought| + |close|] == close;
    FindIsFirst(low, body, CLOSE, |thought|);
  }

  /** An unclosed thought hides everything. */
  lemma BatchOfOpenThought(low: Lower, ws: string, open: string, thought: string)
    requires Leads(ws, open) && Matches(low, open, "<think>")
    requires forall j: nat :: !At(low, thought, "</think>", j)
    ensures Batch(low, ws + (open + thought)) == ""
  {
    var t := open + thought;
    assert t[..|open|] == open && t[0] == open[0];
    StripLeading(ws, t);
    assert t[|OPEN|..] == thought;
    FindFacts(low, thought, CLOSE, 0);
  }

  /** So does the beginning of a marker; anything else is visible as it is. */
  lemma BatchOfPlain(low: Lower, ws: string, t: string)
    requires Leads(ws, t)
    ensures |t| <= 7 && Matches(low, t, "<think>"[..|t|]) ==> Batch(low, ws + t) == ""
    ensures !(|t| <= 7 && Matches(low, t, "<think>"[..|t|])) && !At(low, t, "<think>", 0) ==>
              Batch(low, ws + t) == ws + t
  {
    StripLeading(ws, t);
    if |t| == 7 && At(low, t, OPEN, 0) {
      assert t[..7] == t && Find(low, t[|OPEN|..], CLOSE, 0).None?;
    }
  }

  // ---- When a leak is reported ----

  /** Chunk `i` meets the condition: what came before is settled, and the chunk itself is marked. */
  predicate TripsAt(settled: string -> bool, marked: string -> bool, s: string, chunks: seq<string>, i: nat)
    requires i < |chunks|
  {
    settled(s + S.Concat(chunks[..i])) && marked(chunks[i])
  }

  ghost predicate Trips(settled: string -> bool, marked: string -> bool, s: string, chunks: seq<string>) {
    exists i :: 0 <= i < |chunks| && TripsAt(settled, marked, s, chunks, i)
  }

  /** A push fails exactly on a marked text after a settled stream, and otherwise goes on holding. */
  ghost predicate Strict(push: Pusher, holds: (Filter, string) -> bool, settled: string -> bool,
                         marked: string -> bool, f: Filter, s: string, text: string)
  {
    var pushed := push(f, text);
    && (pushed.Err? <==> settled(s) && marked(text))
    && (pushed.Ok? ==> holds(pushed.value.0, s + text))
  }

  ghost predicate AlwaysStrict(push: Pusher, holds: (Filter, string) -> bool, settled: string -> bool,
                               marked: string -> bool)
  {
    forall f, s, text :: holds(f, s) ==> Strict(push, holds, settled, marked, f, s, text)
  }

  /** The condition for the rest of the chunks is the condition one place further on. */
  lemma TripsShift(settled: string -> bool, marked: string -> bool, s: string, chunks: seq<string>)
    requires chunks != []
    ensures Trips(settled, marked, s, chunks) <==>
              (settled(s) && marked(chunks[0])) || Trips(settled, marked, s + chunks[0], chunks[1..])
  {
    var rest := chunks[1..];
    assert chunks[..0] == [] && s + "" == s;
    assert TripsAt(settled, marked, s, chunks, 0) <==> settled(s) && marked(chunks[0]);
    forall i: nat | i < |rest|
      ensures TripsAt(settled, marked, s + chunks[0], rest, i) <==> TripsAt(settled, marked, s, chunks, i + 1)
    {
      assert chunks[..i + 1][1..] == rest[..i];
      assert s + S.Concat(chunks[..i + 1]) == (s + chunks[0]) + S.Concat(rest[..i]);
    }
    if Trips(settled, marked, s, chunks) && !(settled(s) && marked(chunks[0])) {
      var i :| 0 <= i < |chunks| && TripsAt(settled, marked, s, chunks, i);
      assert i > 0 && TripsAt(settled, marked, s + chunks[0], rest, i - 1);
    }
    if Trips(settled, marked, s + chunks[0], rest) {
      var i :| 0 <= i < |rest| && TripsAt(settled, marked, s + chunks[0], rest, i);
      assert TripsAt(settled, marked, s, chunks, i + 1);
    }
  }

  lemma {:induction false} FailsIffTrips(push: Pusher, holds: (Filter, string) -> bool, settled: string -> bool,
                                         marked: string -> bool, f: Filter, s: string, chunks: seq<string>)
    requires AlwaysStrict(push, holds, settled, marked) && holds(f, s)
    ensures PushEach(push, f, chunks).Err? <==> Trips(settled, marked, s, chunks)
    decreases |chunks|
  {
    if chunks == [] {
    } else {
      assert Strict(push, holds, settled, marked, f, s, chunks[0]);
      TripsShift(settled, marked, s, chunks);
      var pushed := push(f, chunks[0]);
      if pushed.Ok? {
        FailsIffTrips(push, holds, settled, marked, pushed.value.0, s + chunks[0], chunks[1..]);
      }
    }
  }

  function Settling(low: Lower): string -> bool {
    s => Settled(low, s)
  }

  lemma VisibleIsSettled(low: Lower, f: Filter, s: string)
    requires Holds(low, f, s)
    ensures f.mode.Visible? <==> Settled(low, s)
  {
  }

  lemma PushIsStrict(low: Lower, f: Filter, s: string, text: string)
    requires Holds(low, f, s)
    ensures Strict(Pushing(low), Holding(low), Settling(low), Leaking(low), f, s, text)
  {
    PushFollows(low, f, s, text);
    VisibleIsSettled(low, f, s);
  }

  /**
   For every chunking: a leak is reported if and only if some chunk holds a marker whole
   and the visible part had begun before that chunk.
   */
  lemma LeakExactlyWhenOneChunkHoldsIt(low: Lower, chunks: seq<string>)
    ensures PushAll(low, FRESH, chunks).Err? <==>
              exists i :: 0 <= i < |chunks| && TripsAt(Settling(low), Leaking(low), "", chunks, i)
  {
    forall f, s, text | Holding(low)(f, s)
      ensures Strict(Pushing(low), Holding(low), Settling(low), Leaking(low), f, s, text)
    {
      PushIsStrict(low, f, s, text);
    }
    assert AlwaysStrict(Pushing(low), Holding(low), Settling(low), Leaking(low));
    FailsIffTrips(Pushing(low), Holding(low), Settling(low), Leaking(low), FRESH, "", chunks);
  }

  /** Hence a stream cut into chunks shorter than the marker never leads to a report. */
  lemma ShortChunksPass(low: Lower, chunks: seq<string>)
    requires forall i :: 0 <= i < |chunks| ==> |chunks[i]| < |STRAY|
    ensures PushAll(low, FRESH, chunks).Ok?
  {
    LeakExactlyWhenOneChunkHoldsIt(low, chunks);
    forall i: nat | i < |chunks|
      ensures !TripsAt(Settling(low), Leaking(low), "", chunks, i)
    {
      assert !HasMarker(low, chunks[i]);
    }
  }

  lemma NoMatch(low: Lower, s: string, m: string)
    requires s != "" && m != "" && low(s[0]) != m[0]
    ensures !Matches(low, s, m)
  {
  }

  lemma PlainIsVisible(low: Lower, s: string)
    requires s != "" && !T.IsSpace(s[0]) && low(s[0]) != '<'
    ensures Settled(low, s) && Batch(low, s) == s
  {
    assert Strip(s) == s;
    if |s| <= |OPEN| {
      NoMatch(low, s, OPEN[..|s|]);
    }
    if |s| >= |OPEN| {
      NoMatch(low, s[..|OPEN|], OPEN);
    }
  }

  /** So whole streams pass whose visible part holds a marker, while the same stream in other chunks is reported. */
  lemma LeakDependsOnChunks()
    ensures var low: Lower, cut, whole := c => c, ["a", "<thi", "nk"], ["a", "<think"];
            && S.Concat(cut) == S.Concat(whole) && HasMarker(low, Batch(low, S.Concat(cut)))
            && PushAll(low, FRESH, cut).Ok? && PushAll(low, FRESH, whole).Err?
  {
    var low: Lower, cut, whole := c => c, ["a", "<thi", "nk"], ["a", "<think"];
    OneByOne();
    ShortChunksPass(low, cut);
    assert At(low, STRAY, STRAY, 0);
    PlainIsVisible(low, "a<think");
    MarkerStays(low, "a", STRAY, "");
    assert "a" + STRAY + "" == "a<think";
    PlainIsVisible(low, "a");
    assert whole[..1] == ["a"] && "" + S.Concat(["a"]) == "a";
    assert TripsAt(Settling(low), Leaking(low), "", whole, 1);
    LeakExactlyWhenOneChunkHoldsIt(low, whole);
  }

  lemma OneByOne()
    ensures S.Concat(["a"]) == "a" && S.Concat(["a", "<think"]) == "a<think"
    ensures S.Concat(["a", "<thi", "nk"]) == "a<think"
  {
    assert ["a"][1..] == [] && ["nk"][1..] == [] && ["<think"][1..] == [] && ["<thi", "nk"][1..] == ["nk"];
    assert ["a", "<think"][1..] == ["<think"] && ["a", "<thi", "nk"][1..] == ["<thi", "nk"];
    assert S.Concat(["nk"]) == "nk" + "" && S.Concat(["<think"]) == "<think" + "" && S.Concat(["a"]) == "a" + "";
  }

  class VisibleTextFilter {
    const low: Lower
    var mode: Mode
    var buffer: string
    var reasoningDetected: bool

    function View(): Filter
      reads this
    {
      Filter(mode, buffer, reasoningDetected)
    }

    constructor (low: Lower)
      ensures View() == FRESH && this.low == low
    {
      this.low := low;
      mode, buffer, reasoningDetected := Start, "", false;
    }

    method Push(text: string) returns (r: Result<string, Leak>)
      modifies this
      ensures match PushOne(low, old(View()), text)
              case Ok((next, shown)) => r == Ok(shown) && View() == next
              case Err(leak) => r == Err(leak) && View() == old(View()).(detected := true)
    {
      if text == "" {
        return Ok("");
      }
      if mode == Visible {
        if Contains(low, text, STRAY) || Contains(low, text, CLOSE) {
          reasoningDetected := true;
          return Err(ReasoningLeak);
        }
        return Ok(text);
      }
      buffer := buffer + text;
      if mode == Start {
        var stripped := Strip(buffer);
        if stripped == "" || Undecided(low, buffer) {
          return Ok("");
        }
        if !At(low, stripped, OPEN, 0) {
          mode := Visible;
          var output := buffer;
          buffer := "";
          return Ok(output);
        }
        reasoningDetected := true;
        mode := Thinking;
        buffer := stripped[|OPEN|..];
      }
      var index := Find(low, buffer, CLOSE, 0);
      if index.None? {
        buffer := Carry(buffer);
        return Ok("");
      }
      var remainder := buffer[index.value + |CLOSE|..];
      buffer := "";
      mode := Visible;
      r := Ok(remainder);
    }
  }
}
