/**
 The voice activity state machine of one session (runtimes/silero.py).

 The Silero network is an oracle over the windows it has been given since its last
 reset. `MeetsSpecification` relates the state machine to a declarative reading of the
 whole window history; `FramingIsIrrelevant` shows that input chunking does not matter.
 */
module SileroVad {
  import opened Options

  const WINDOW: nat := 512
  const WINDOW_BYTES: nat := 1024

  /** Durations in samples. */
  datatype Config = Config(minSpeech: nat, continuation: nat, minSilence: nat, pad: nat)

  datatype Signal = Started(sample: nat) | Stopped(sample: nat)

  datatype State = State(
    processed: nat,
    candidateStart: Option<nat>,
    candidateSilence: Option<nat>,
    speechStart: Option<nat>,
    silenceStart: Option<nat>)

  const FRESH := State(0, None, None, None, None)

  function Less(a: nat, b: nat): nat {
    if a < b then 0 else a - b
  }

  function Min(a: nat, b: nat): nat {
    if a < b then a else b
  }

  /** One window: the next state and at most one signal. */
  function Advance(c: Config, s: State, speech: bool): (State, Option<Signal>) {
    var start, end := s.processed, s.processed + WINDOW;
    if s.speechStart.None? then
      if speech then
        var candidate := if s.candidateStart.Some? then s.candidateStart.value else start;
        var s' := s.(processed := end, candidateStart := Some(candidate), candidateSilence := None);
        if end - candidate >= c.minSpeech then
          (s'.(speechStart := Some(Less(candidate, c.pad))), Some(Started(Less(candidate, c.pad))))
        else (s', None)
      else if s.candidateStart.Some? then
        var silence := if s.candidateSilence.Some? then s.candidateSilence.value else start;
        if end - silence > c.continuation then
          (s.(processed := end, candidateStart := None, candidateSilence := None), None)
        else (s.(processed := end, candidateSilence := Some(silence)), None)
      else (s.(processed := end), None)
    else if speech then
      (s.(processed := end, silenceStart := None), None)
    else
      var silence := if s.silenceStart.Some? then s.silenceStart.value else start;
      if end - silence >= c.minSilence then
        (State(end, None, None, None, None), Some(Stopped(Min(end, silence + c.pad))))
      else (s.(processed := end, silenceStart := Some(silence)), None)
  }

  /** The state after the first `n` windows of a history, and the signals they produced. */
  function RunTo(c: Config, h: seq<bool>, n: nat): (State, seq<Signal>)
    requires n <= |h|
  {
    if n == 0 then (FRESH, [])
    else
      var (before, signals) := RunTo(c, h, n - 1);
      var (after, signal) := Advance(c, before, h[n - 1]);
      (after, if signal.Some? then signals + [signal.value] else signals)
  }

  // ---- The declarative reading ----

  /** Windows i up to j are all silent. */
  ghost predicate Silent(h: seq<bool>, i: nat, j: nat)
    requires j <= |h|
  {
    forall k :: i <= k < j ==> !h[k]
  }

  /** Between window a and the end e no silence outlasts the continuation limit. */
  ghost predicate Joined(c: Config, h: seq<bool>, a: nat, e: nat)
    requires e <= |h|
  {
    forall i: nat, j: nat :: a <= i <= j <= e && Silent(h, i, j) ==> (j - i) * WINDOW <= c.continuation
  }

  /** Window a is the earliest speech since b that is joined to the end e. */
  ghost predicate Candidate(c: Config, h: seq<bool>, b: nat, a: nat, e: nat)
    requires e <= |h|
  {
    b <= a < e && h[a] && Joined(c, h, a, e)
    && forall other: nat :: b <= other < a && h[other] ==> !Joined(c, h, other, e)
  }

  /** Window n completes enough speech, counted from candidate a. */
  ghost predicate StartsAt(c: Config, h: seq<bool>, b: nat, a: nat, n: nat)
    requires n < |h|
  {
    h[n] && Candidate(c, h, b, a, n + 1) && (n + 1 - a) * WINDOW >= c.minSpeech
  }

  ghost predicate Starts(c: Config, h: seq<bool>, b: nat, n: nat)
    requires n < |h|
  {
    exists a: nat :: StartsAt(c, h, b, a, n)
  }

  /** Silence has held from window k, the end of speech, through window n. */
  ghost predicate StopsAt(c: Config, h: seq<bool>, m: nat, k: nat, n: nat)
    requires n < |h|
  {
    m < k <= n && h[k - 1] && Silent(h, k, n + 1) && (n + 1 - k) * WINDOW >= c.minSilence
  }

  ghost predicate Stops(c: Config, h: seq<bool>, m: nat, n: nat)
    requires n < |h|
  {
    exists k: nat :: StopsAt(c, h, m, k, n)
  }

  /** Speech detected at window `start` from candidate `from`; ended at `stop`, silent since `until`. */
  datatype Segment = Segment(from: nat, start: nat, until: nat, stop: nat)

  function Base(segments: seq<Segment>): nat {
    if segments == [] then 0 else segments[|segments| - 1].stop + 1
  }

  /** n is the first window from b on at which speech starts. */
  ghost predicate FirstStart(c: Config, h: seq<bool>, b: nat, a: nat, n: nat)
    requires n < |h|
  {
    b <= n && StartsAt(c, h, b, a, n) && forall k: nat :: b <= k < n ==> !Starts(c, h, b, k)
  }

  ghost predicate FirstStop(c: Config, h: seq<bool>, m: nat, k: nat, n: nat)
    requires n < |h|
  {
    StopsAt(c, h, m, k, n) && forall i: nat :: m < i < n ==> !Stops(c, h, m, i)
  }

  /** The history consists of these segments: each starts and stops as early as it can. */
  ghost predicate Segmented(c: Config, h: seq<bool>, segments: seq<Segment>) {
    segments != [] ==>
      var last, before := segments[|segments| - 1], segments[..|segments| - 1];
      && last.start < last.stop < |h|
      && FirstStart(c, h, Base(before), last.from, last.start)
      && FirstStop(c, h, last.start, last.until, last.stop)
      && Segmented(c, h, before)
  }

  /** No segment is left out up to window e: the open one, if any, has not stopped. */
  ghost predicate Complete(c: Config, h: seq<bool>, segments: seq<Segment>, open: Option<(nat, nat)>, e: nat)
    requires e <= |h|
  {
    && Base(segments) <= e
    && match open
       case None => forall n: nat :: Base(segments) <= n < e ==> !Starts(c, h, Base(segments), n)
       case Some((from, start)) =>
         && start < e && FirstStart(c, h, Base(segments), from, start)
         && forall n: nat :: start < n < e ==> !Stops(c, h, start, n)
  }

  function StartSample(c: Config, from: nat): nat {
    Less(from * WINDOW, c.pad)
  }

  function StopSample(c: Config, until: nat, stop: nat): nat {
    Min((stop + 1) * WINDOW, until * WINDOW + c.pad)
  }

  function SignalsOf(c: Config, segments: seq<Segment>): seq<Signal> {
    if segments == [] then []
    else
      var last := segments[|segments| - 1];
      SignalsOf(c, segments[..|segments| - 1])
      + [Started(StartSample(c, last.from)), Stopped(StopSample(c, last.until, last.stop))]
  }

  function AllSignals(c: Config, segments: seq<Segment>, open: Option<(nat, nat)>): seq<Signal> {
    SignalsOf(c, segments) + if open.Some? then [Started(StartSample(c, open.value.0))] else []
  }

  /** The fields of the state machine, read off the history. */
  ghost predicate Reads(c: Config, h: seq<bool>, s: State, segments: seq<Segment>, open: Option<(nat, nat)>, e: nat)
    requires e <= |h|
  {
    var b := Base(segments);
    && s.processed == e * WINDOW
    && match open
       case None =>
         && s.speechStart.None? && s.silenceStart.None?
         && (s.candidateStart.None? ==>
               s.candidateSilence.None? && forall a: nat :: b <= a < e && h[a] ==> !Joined(c, h, a, e))
         && (s.candidateStart.Some? ==>
               exists a: nat :: s.candidateStart.value == a * WINDOW && Candidate(c, h, b, a, e))
         && (s.candidateStart.Some? && s.candidateSilence.None? ==> 0 < e && h[e - 1])
         && (s.candidateSilence.Some? ==> Trailing(h, b, s.candidateSilence.value, e))
       case Some((from, start)) =>
         && s.speechStart == Some(StartSample(c, from))
         && (s.silenceStart.None? ==> 0 < e && h[e - 1])
         && (s.silenceStart.Some? ==> Trailing(h, start, s.silenceStart.value, e))
  }

  /** The last speech window before e is the one just before `sample`. */
  ghost predicate Trailing(h: seq<bool>, b: nat, sample: nat, e: nat)
    requires e <= |h|
  {
    exists k: nat :: sample == k * WINDOW && b < k < e && h[k - 1] && Silent(h, k, e)
  }

  // ---- Proof ----

  lemma JoinedShrinks(c: Config, h: seq<bool>, a: nat, e: nat)
    requires e < |h| && Joined(c, h, a, e + 1)
    ensures Joined(c, h, a, e)
  {
  }

  /** Speech lies before every silence that follows it. */
  lemma LastSpeech(h: seq<bool>, k: nat, i: nat, e: nat)
    requires i < e <= |h| && h[i] && Silent(h, k, e)
    ensures i < k
  {
  }

  lemma JoinedBySpeech(c: Config, h: seq<bool>, a: nat, e: nat)
    requires e < |h| && h[e] && a <= e && Joined(c, h, a, e)
    ensures Joined(c, h, a, e + 1)
  {
    forall i: nat, j: nat | a <= i <= j <= e + 1 && Silent(h, i, j)
      ensures (j - i) * WINDOW <= c.continuation
    {
      if j == e + 1 {
        LastSpeech(h, i, e, j);
      }
    }
  }

  lemma JoinedBySilence(c: Config, h: seq<bool>, a: nat, k: nat, e: nat)
    requires e < |h| && a < k <= e && h[k - 1] && Silent(h, k, e + 1)
    requires Joined(c, h, a, e) && (e + 1 - k) * WINDOW <= c.continuation
    ensures Joined(c, h, a, e + 1)
  {
    forall i: nat, j: nat | a <= i <= j <= e + 1 && Silent(h, i, j)
      ensures (j - i) * WINDOW <= c.continuation
    {
      if j == e + 1 {
        LastSpeech(h, i, k - 1, j);
      }
    }
  }

  lemma TooLongIsNotJoined(c: Config, h: seq<bool>, a: nat, k: nat, e: nat)
    requires e <= |h| && a <= k <= e && Silent(h, k, e) && (e - k) * WINDOW > c.continuation
    ensures !Joined(c, h, a, e)
  {
  }

  /** A longer end only loses candidates that a silence has cut off. */
  lemma EarlierStayApart(c: Config, h: seq<bool>, b: nat, a: nat, e: nat)
    requires e < |h| && a <= e
    requires forall other: nat :: b <= other < a && h[other] ==> !Joined(c, h, other, e)
    ensures forall other: nat :: b <= other < a && h[other] ==> !Joined(c, h, other, e + 1)
  {
    forall other: nat | b <= other < a && h[other]
      ensures !Joined(c, h, other, e + 1)
    {
      if Joined(c, h, other, e + 1) {
        JoinedShrinks(c, h, other, e);
      }
    }
  }

  lemma CandidateUnique(c: Config, h: seq<bool>, b: nat, a: nat, a': nat, e: nat)
    requires e <= |h| && Candidate(c, h, b, a, e) && Candidate(c, h, b, a', e)
    ensures a == a'
  {
  }

  lemma TrailingUnique(h: seq<bool>, k: nat, k': nat, e: nat)
    requires e <= |h| && 0 < k <= e && 0 < k' <= e && h[k - 1] && h[k' - 1] && Silent(h, k, e) && Silent(h, k', e)
    ensures k == k'
  {
    LastSpeech(h, k, k' - 1, e);
    LastSpeech(h, k', k - 1, e);
  }

  /** A speech window keeps the candidate, or becomes one. */
  lemma CandidateBySpeech(c: Config, h: seq<bool>, s: State, segments: seq<Segment>, e: nat) returns (a: nat)
    requires e < |h| && h[e] && Base(segments) <= e && Reads(c, h, s, segments, None, e)
    ensures Candidate(c, h, Base(segments), a, e + 1)
    ensures a * WINDOW == if s.candidateStart.Some? then s.candidateStart.value else s.processed
  {
    var b := Base(segments);
    if s.candidateStart.Some? {
      a :| s.candidateStart.value == a * WINDOW && Candidate(c, h, b, a, e);
      JoinedBySpeech(c, h, a, e);
    } else {
      a := e;
      assert Joined(c, h, e, e);
      JoinedBySpeech(c, h, e, e);
    }
    EarlierStayApart(c, h, b, a, e);
  }

  /** The window where the present silence began. */
  lemma SilenceBegin(h: seq<bool>, b: nat, since: Option<nat>, e: nat) returns (k: nat)
    requires e < |h| && !h[e] && b < e
    requires since.None? ==> h[e - 1]
    requires since.Some? ==> Trailing(h, b, since.value, e)
    ensures b < k <= e && h[k - 1] && Silent(h, k, e + 1)
    ensures k * WINDOW == if since.Some? then since.value else e * WINDOW
    ensures k < e + 1 && Trailing(h, b, k * WINDOW, e + 1)
  {
    if since.Some? {
      k :| since.value == k * WINDOW && b < k < e && h[k - 1] && Silent(h, k, e);
    } else {
      k := e;
    }
    assert Silent(h, k, e + 1);
  }

  /** A silent window without open speech keeps the candidate or cuts it off. */
  lemma SilenceReads(c: Config, h: seq<bool>, s: State, segments: seq<Segment>, e: nat)
    requires e < |h| && !h[e] && Base(segments) <= e && Reads(c, h, s, segments, None, e)
    ensures Reads(c, h, Advance(c, s, false).0, segments, None, e + 1)
  {
    var b := Base(segments);
    var s' := Advance(c, s, false).0;
    if s.candidateStart.None? {
      EarlierStayApart(c, h, b, e, e);
    } else {
      var a: nat :| s.candidateStart.value == a * WINDOW && Candidate(c, h, b, a, e);
      var k := SilenceBegin(h, b, s.candidateSilence, e);
      LastSpeech(h, k, a, e + 1);
      if (e + 1 - k) * WINDOW > c.continuation {
        forall other: nat | b <= other < e + 1 && h[other]
          ensures !Joined(c, h, other, e + 1)
        {
          assert other < k;
          TooLongIsNotJoined(c, h, other, k, e + 1);
        }
      } else {
        JoinedBySilence(c, h, a, k, e);
        EarlierStayApart(c, h, b, a, e);
        assert Candidate(c, h, b, a, e + 1);
      }
    }
  }

  /** While no speech is open: one more window. */
  lemma WaitingStep(c: Config, h: seq<bool>, s: State, segments: seq<Segment>, e: nat)
    returns (open: Option<(nat, nat)>)
    requires e < |h| && Complete(c, h, segments, None, e) && Reads(c, h, s, segments, None, e)
    ensures var (s', signal) := Advance(c, s, h[e]);
            && Complete(c, h, segments, open, e + 1) && Reads(c, h, s', segments, open, e + 1)
            && signal == if open.Some? then Some(Started(StartSample(c, open.value.0))) else None
  {
    var b := Base(segments);
    open := None;
    if h[e] {
      var a := CandidateBySpeech(c, h, s, segments, e);
      if (e + 1 - a) * WINDOW >= c.minSpeech {
        assert StartsAt(c, h, b, a, e);
        open := Some((a, e));
      } else {
        forall other: nat
          ensures !StartsAt(c, h, b, other, e)
        {
          if Candidate(c, h, b, other, e + 1) {
            CandidateUnique(c, h, b, other, a, e + 1);
          }
        }
      }
    } else {
      SilenceReads(c, h, s, segments, e);
    }
  }

  lemma NoStopOnSpeech(c: Config, h: seq<bool>, m: nat, n: nat)
    requires n < |h| && h[n]
    ensures !Stops(c, h, m, n)
  {
    forall k: nat
      ensures !StopsAt(c, h, m, k, n)
    {
      if Silent(h, k, n + 1) {
        LastSpeech(h, k, n, n + 1);
      }
    }
  }

  lemma NoStopYet(c: Config, h: seq<bool>, m: nat, k: nat, n: nat)
    requires n < |h| && 0 < k <= n && h[k - 1] && Silent(h, k, n + 1) && (n + 1 - k) * WINDOW < c.minSilence
    ensures !Stops(c, h, m, n)
  {
    forall other: nat
      ensures !StopsAt(c, h, m, other, n)
    {
      if m < other <= n && h[other - 1] && Silent(h, other, n + 1) {
        TrailingUnique(h, k, other, n + 1);
      }
    }
  }

  /** The open segment stops at window e. */
  lemma CloseSegment(c: Config, h: seq<bool>, segments: seq<Segment>, open: (nat, nat), k: nat, e: nat)
    requires e < |h| && Segmented(c, h, segments) && Complete(c, h, segments, Some(open), e)
    requires StopsAt(c, h, open.1, k, e)
    ensures var segments' := segments + [Segment(open.0, open.1, k, e)];
            && segments'[..|segments|] == segments && Segmented(c, h, segments')
            && Complete(c, h, segments', None, e + 1)
            && Reads(c, h, State((e + 1) * WINDOW, None, None, None, None), segments', None, e + 1)
  {
    var segments' := segments + [Segment(open.0, open.1, k, e)];
    assert segments'[..|segments'| - 1] == segments;
    assert FirstStop(c, h, open.1, k, e);
  }

  /** While speech is open: one more window, which may close the segment. */
  lemma SpeakingStep(c: Config, h: seq<bool>, s: State, segments: seq<Segment>, open: (nat, nat), e: nat)
    returns (segments': seq<Segment>, open': Option<(nat, nat)>)
    requires e < |h| && Segmented(c, h, segments)
    requires Complete(c, h, segments, Some(open), e) && Reads(c, h, s, segments, Some(open), e)
    ensures Segmented(c, h, segments')
    ensures var (s', signal) := Advance(c, s, h[e]);
            && Complete(c, h, segments', open', e + 1) && Reads(c, h, s', segments', open', e + 1)
            && (if open'.Some? then segments' == segments && open' == Some(open) && signal == None
                else |segments'| == |segments| + 1 && segments'[..|segments|] == segments
                     && var last := segments'[|segments|];
                        last.from == open.0 && last.start == open.1
                        && signal == Some(Stopped(StopSample(c, last.until, last.stop))))
  {
    var (from, start) := open;
    segments', open' := segments, Some(open);
    if h[e] {
      NoStopOnSpeech(c, h, start, e);
    } else {
      var k := SilenceBegin(h, start, s.silenceStart, e);
      if (e + 1 - k) * WINDOW >= c.minSilence {
        CloseSegment(c, h, segments, open, k, e);
        segments', open' := segments + [Segment(from, start, k, e)], None;
      } else {
        NoStopYet(c, h, start, k, e);
      }
    }
  }

  lemma AnyStep(c: Config, h: seq<bool>, s: State, segments: seq<Segment>, open: Option<(nat, nat)>, e: nat)
    returns (segments': seq<Segment>, open': Option<(nat, nat)>)
    requires e < |h| && Segmented(c, h, segments)
    requires Complete(c, h, segments, open, e) && Reads(c, h, s, segments, open, e)
    ensures Segmented(c, h, segments')
    ensures var (s', signal) := Advance(c, s, h[e]);
            && Complete(c, h, segments', open', e + 1) && Reads(c, h, s', segments', open', e + 1)
            && AllSignals(c, segments', open') ==
               AllSignals(c, segments, open) + if signal.Some? then [signal.value] else []
  {
    if open.None? {
      segments' := segments;
      open' := WaitingStep(c, h, s, segments, e);
    } else {
      segments', open' := SpeakingStep(c, h, s, segments, open.value, e);
      if open'.None? {
        var last := segments'[|segments|];
        assert SignalsOf(c, segments') ==
               SignalsOf(c, segments) + [Started(StartSample(c, last.from))]
               + [Stopped(StopSample(c, last.until, last.stop))];
      }
    }
  }

  /** For every window history the state machine emits exactly the signals of its segmentation. */
  lemma {:induction false} MeetsSpecification(c: Config, h: seq<bool>, e: nat)
    returns (segments: seq<Segment>, open: Option<(nat, nat)>)
    requires e <= |h|
    ensures Segmented(c, h, segments) && Complete(c, h, segments, open, e)
    ensures RunTo(c, h, e).1 == AllSignals(c, segments, open)
    ensures Reads(c, h, RunTo(c, h, e).0, segments, open, e)
  {
    if e == 0 {
      segments, open := [], None;
    } else {
      segments, open := MeetsSpecification(c, h, e - 1);
      segments, open := AnyStep(c, h, RunTo(c, h, e - 1).0, segments, open, e - 1);
    }
  }

  /** A segment's start is reported before its stop. */
  lemma StartBeforeStop(c: Config, h: seq<bool>, segments: seq<Segment>)
    requires segments != [] && Segmented(c, h, segments)
    ensures var last := segments[|segments| - 1];
            StartSample(c, last.from) < StopSample(c, last.until, last.stop)
  {
  }

  // ---- The segmentation of a history is unique ----

  lemma FirstStartUnique(c: Config, h: seq<bool>, b: nat, a: nat, n: nat, a': nat, n': nat)
    requires n < |h| && n' < |h| && FirstStart(c, h, b, a, n) && FirstStart(c, h, b, a', n')
    ensures a == a' && n == n'
  {
    assert Starts(c, h, b, n) && Starts(c, h, b, n');
    CandidateUnique(c, h, b, a, a', n + 1);
  }

  lemma FirstStopUnique(c: Config, h: seq<bool>, m: nat, k: nat, n: nat, k': nat, n': nat)
    requires n < |h| && n' < |h| && FirstStop(c, h, m, k, n) && FirstStop(c, h, m, k', n')
    ensures k == k' && n == n'
  {
    assert Stops(c, h, m, n) && Stops(c, h, m, n');
    TrailingUnique(h, k, k', n + 1);
  }

  lemma NextUnique(c: Config, h: seq<bool>, b: nat, one: Segment, two: Segment)
    requires one.start < one.stop < |h| && two.start < two.stop < |h|
    requires FirstStart(c, h, b, one.from, one.start) && FirstStop(c, h, one.start, one.until, one.stop)
    requires FirstStart(c, h, b, two.from, two.start) && FirstStop(c, h, two.start, two.until, two.stop)
    ensures one == two
  {
    FirstStartUnique(c, h, b, one.from, one.start, two.from, two.start);
    FirstStopUnique(c, h, one.start, one.until, one.stop, two.until, two.stop);
  }

  /** Two segmentations of a history agree as far as both go. */
  lemma {:induction false} AgreeInLength(c: Config, h: seq<bool>, one: seq<Segment>, two: seq<Segment>)
    requires Segmented(c, h, one) && Segmented(c, h, two) && |one| == |two|
    ensures one == two
  {
    if one == [] {
    } else {
      var n := |one| - 1;
      AgreeInLength(c, h, one[..n], two[..n]);
      NextUnique(c, h, Base(one[..n]), one[n], two[n]);
      assert one == one[..n] + [one[n]] && two == two[..n] + [two[n]];
    }
  }

  lemma LastSegment(c: Config, h: seq<bool>, front: seq<Segment>, x: Segment)
    requires Segmented(c, h, front + [x])
    ensures Segmented(c, h, front) && Base(front) <= x.start < x.stop < |h| && Base(front + [x]) == x.stop + 1
    ensures FirstStart(c, h, Base(front), x.from, x.start) && FirstStop(c, h, x.start, x.until, x.stop)
  {
    assert (front + [x])[..|front|] == front;
  }

  /** The first segments are a segmentation that ends no later than the whole. */
  lemma {:induction false} SegmentedPrefix(c: Config, h: seq<bool>, segments: seq<Segment>, n: nat)
    requires Segmented(c, h, segments) && n <= |segments|
    ensures Segmented(c, h, segments[..n]) && Base(segments[..n]) <= Base(segments)
    decreases |segments|
  {
    if n == |segments| {
      assert segments[..n] == segments;
    } else {
      var front, x := segments[..|segments| - 1], segments[|segments| - 1];
      assert segments == front + [x];
      LastSegment(c, h, front, x);
      SegmentedPrefix(c, h, front, n);
      assert front[..n] == segments[..n];
    }
  }

  /** The next segment of a longer segmentation: what the shorter one has left out. */
  ghost predicate Omits(c: Config, h: seq<bool>, b: nat, x: Segment, e: nat) {
    && x.start < x.stop < e <= |h|
    && FirstStart(c, h, b, x.from, x.start) && FirstStop(c, h, x.start, x.until, x.stop)
  }

  lemma CompleteOmitsNothing(c: Config, h: seq<bool>, one: seq<Segment>, open: Option<(nat, nat)>, x: Segment, e: nat)
    requires e <= |h| && Complete(c, h, one, open, e)
    ensures !Omits(c, h, Base(one), x, e)
  {
    if Omits(c, h, Base(one), x, e) {
      assert Starts(c, h, Base(one), x.start) && Stops(c, h, x.start, x.stop);
      if open.Some? {
        FirstStartUnique(c, h, Base(one), x.from, x.start, open.value.0, open.value.1);
      }
    }
  }

  lemma NextIsOmitted(c: Config, h: seq<bool>, two: seq<Segment>, n: nat, e: nat)
    requires Segmented(c, h, two) && n < |two| && Base(two) <= e <= |h|
    ensures Segmented(c, h, two[..n]) && Omits(c, h, Base(two[..n]), two[n], e)
  {
    SegmentedPrefix(c, h, two, n + 1);
    assert two[..n + 1] == two[..n] + [two[n]];
    LastSegment(c, h, two[..n], two[n]);
  }

  lemma NotLonger(c: Config, h: seq<bool>, one: seq<Segment>, open: Option<(nat, nat)>, two: seq<Segment>, e: nat)
    requires e <= |h| && Segmented(c, h, one) && Complete(c, h, one, open, e)
    requires Segmented(c, h, two) && Base(two) <= e
    ensures |two| <= |one|
  {
    if |two| > |one| {
      var n := |one|;
      NextIsOmitted(c, h, two, n, e);
      AgreeInLength(c, h, one, two[..n]);
      CompleteOmitsNothing(c, h, one, open, two[n], e);
    }
  }

  lemma SameOpen(c: Config, h: seq<bool>, segments: seq<Segment>, a: Option<(nat, nat)>, b: Option<(nat, nat)>, e: nat)
    requires e <= |h| && Complete(c, h, segments, a, e) && Complete(c, h, segments, b, e)
    ensures a == b
  {
    if a.Some? && b.Some? {
      FirstStartUnique(c, h, Base(segments), a.value.0, a.value.1, b.value.0, b.value.1);
    } else if a.Some? {
      assert Starts(c, h, Base(segments), a.value.1);
    } else if b.Some? {
      assert Starts(c, h, Base(segments), b.value.1);
    }
  }

  /** A history has only one complete segmentation, up to any window. */
  lemma SameSegments(c: Config, h: seq<bool>, one: seq<Segment>, oneOpen: Option<(nat, nat)>,
                     two: seq<Segment>, twoOpen: Option<(nat, nat)>, e: nat)
    requires e <= |h|
    requires Segmented(c, h, one) && Complete(c, h, one, oneOpen, e)
    requires Segmented(c, h, two) && Complete(c, h, two, twoOpen, e)
    ensures one == two && oneOpen == twoOpen
  {
    NotLonger(c, h, one, oneOpen, two, e);
    NotLonger(c, h, two, twoOpen, one, e);
    AgreeInLength(c, h, one, two);
    SameOpen(c, h, one, oneOpen, twoOpen, e);
  }
}
