/**
 Cutting a streamed text into segments, whatever decides where to cut.

 A `Cutter` stands for the boundary rules and the normal form of texts; `TextSegmenter`
 provides the one of the source and the class. The results here are about any
 sequence of feeds followed by a flush.
 */
module Segmentation {
  import opened Options

  datatype Rules = Rules(
    limit: nat,
    cut: (string, nat) -> Option<nat>, // given the buffer and how many segments were emitted
    flushCut: string -> nat,           // for a buffer whose normal form is over the limit
    normalize: string -> string)

  ghost predicate Lawful(r: Rules) {
    && (forall b, n {:trigger r.cut(b, n)} ::
          match r.cut(b, n)
          case None => |b| <= r.limit
          case Some(k) => 0 < k <= |b| && |r.normalize(b[..k])| <= r.limit)
    && (forall b {:trigger r.flushCut(b)} :: |r.normalize(b)| > r.limit ==>
          var k := r.flushCut(b);
          0 < k <= |b| && |r.normalize(b[..k])| <= r.limit)
    && (forall s {:trigger r.normalize(s)} :: |r.normalize(s)| <= |s|)
    && (forall s {:trigger r.normalize(r.normalize(s))} :: r.normalize(r.normalize(s)) == r.normalize(s))
  }

  type Cutter = r: Rules | Lawful(r)
    ghost witness Rules(0, (b, _) => if b == "" then None else Some(1), _ => 0, _ => "")

  datatype Progress = Progress(buffer: string, emitted: nat)

  function Prepend(segment: string, segments: seq<string>): seq<string> {
    if segment == "" then segments else [segment] + segments
  }

  function Taken(c: Cutter, p: Progress, k: nat): Progress
    requires k <= |p.buffer|
  {
    Progress(p.buffer[k..], if c.normalize(p.buffer[..k]) != "" then p.emitted + 1 else p.emitted)
  }

  /** The segments cut off while text is still arriving, and what is kept. */
  function FeedFrom(c: Cutter, p: Progress): (seq<string>, Progress)
    decreases |p.buffer|
  {
    var k := c.cut(p.buffer, p.emitted);
    if k.None? then ([], p)
    else
      var (later, end) := FeedFrom(c, Taken(c, p, k.value));
      (Prepend(c.normalize(p.buffer[..k.value]), later), end)
  }

  function FlushFrom(c: Cutter, p: Progress): (seq<string>, Progress)
    decreases |p.buffer|
  {
    var text := c.normalize(p.buffer);
    if |text| > c.limit then
      var k := c.flushCut(p.buffer);
      var (later, end) := FlushFrom(c, Taken(c, p, k));
      (Prepend(c.normalize(p.buffer[..k]), later), end)
    else (Prepend(text, []), Progress("", if text != "" then p.emitted + 1 else p.emitted))
  }

  /** The segments of a text that arrives in parts, before it is flushed. */
  function FeedParts(c: Cutter, p: Progress, parts: seq<string>): (seq<string>, Progress)
    decreases |parts|
  {
    if parts == [] then ([], p)
    else
      var (now, next) := FeedFrom(c, p.(buffer := p.buffer + parts[0]));
      var (later, end) := FeedParts(c, next, parts[1..]);
      (now + later, end)
  }

  function Concat(parts: seq<string>): string {
    if parts == [] then "" else parts[0] + Concat(parts[1..])
  }

  lemma {:induction false} ConcatAppend(a: seq<string>, b: seq<string>)
    ensures Concat(a + b) == Concat(a) + Concat(b)
    decreases |a|
  {
    if a == [] {
      assert a + b == b;
    } else {
      ConcatAppend(a[1..], b);
      assert (a + b)[1..] == a[1..] + b;
    }
  }

  // ---- Every segment can be spoken ----

  /** Non-empty, in normal form and within the limit. */
  predicate Speakable(c: Cutter, segment: string) {
    segment != "" && c.normalize(segment) == segment && |segment| <= c.limit
  }

  predicate AllSpeakable(c: Cutter, segments: seq<string>) {
    forall i {:trigger Speakable(c, segments[i])} :: 0 <= i < |segments| ==> Speakable(c, segments[i])
  }

  lemma AllAppend(c: Cutter, a: seq<string>, b: seq<string>)
    requires AllSpeakable(c, a) && AllSpeakable(c, b)
    ensures AllSpeakable(c, a + b)
  {
    forall i | 0 <= i < |a + b|
      ensures Speakable(c, (a + b)[i])
    {
      assert i < |a| ==> Speakable(c, a[i]);
      assert i >= |a| ==> Speakable(c, b[i - |a|]);
    }
  }

  lemma PrependSpeakable(c: Cutter, raw: string, segments: seq<string>)
    requires |c.normalize(raw)| <= c.limit && AllSpeakable(c, segments)
    ensures AllSpeakable(c, Prepend(c.normalize(raw), segments))
  {
    var segment := c.normalize(raw);
    if segment != "" {
      assert c.normalize(c.normalize(raw)) == segment;
      assert forall i :: 0 <= i < |[segment]| ==> Speakable(c, [segment][i]);
      AllAppend(c, [segment], segments);
    }
  }

  lemma {:induction false} FeedCuts(c: Cutter, p: Progress)
    ensures var (segments, end) := FeedFrom(c, p);
            AllSpeakable(c, segments) && end.emitted == p.emitted + |segments|
    decreases |p.buffer|
  {
    var k := c.cut(p.buffer, p.emitted);
    if k.None? {
    } else {
      FeedCuts(c, Taken(c, p, k.value));
      PrependSpeakable(c, p.buffer[..k.value], FeedFrom(c, Taken(c, p, k.value)).0);
    }
  }

  /** After a feed at most `limit` characters wait, and no further cut is due. */
  lemma {:induction false} FeedLeavesLittle(c: Cutter, p: Progress)
    ensures var end := FeedFrom(c, p).1;
            |end.buffer| <= c.limit && c.cut(end.buffer, end.emitted).None?
    decreases |p.buffer|
  {
    var k := c.cut(p.buffer, p.emitted);
    if k.None? {
    } else {
      FeedLeavesLittle(c, Taken(c, p, k.value));
    }
  }

  lemma {:induction false} FlushCuts(c: Cutter, p: Progress)
    ensures var (segments, end) := FlushFrom(c, p);
            AllSpeakable(c, segments) && end == Progress("", p.emitted + |segments|)
    decreases |p.buffer|
  {
    if |c.normalize(p.buffer)| > c.limit {
      var k := c.flushCut(p.buffer);
      FlushCuts(c, Taken(c, p, k));
      PrependSpeakable(c, p.buffer[..k], FlushFrom(c, Taken(c, p, k)).0);
    } else {
      PrependSpeakable(c, p.buffer, []);
    }
  }

  /** A buffer within the limit is flushed as at most one segment. */
  lemma FlushAddsOne(c: Cutter, p: Progress)
    requires |p.buffer| <= c.limit
    ensures |FlushFrom(c, p).0| <= 1
  {
    assert |c.normalize(p.buffer)| <= |p.buffer|;
  }

  lemma {:induction false} PartsAreSpeakable(c: Cutter, p: Progress, parts: seq<string>)
    requires |p.buffer| <= c.limit
    ensures var (segments, end) := FeedParts(c, p, parts);
            AllSpeakable(c, segments) && |end.buffer| <= c.limit && end.emitted == p.emitted + |segments|
    decreases |parts|
  {
    if parts == [] {
    } else {
      var grown := p.(buffer := p.buffer + parts[0]);
      var (now, next) := FeedFrom(c, grown);
      FeedCuts(c, grown);
      FeedLeavesLittle(c, grown);
      PartsAreSpeakable(c, next, parts[1..]);
      AllAppend(c, now, FeedParts(c, next, parts[1..]).0);
    }
  }

  // ---- Nothing is lost ----

  /** A reading of texts part by part that normalizing does not change. */
  ghost predicate Reading(c: Cutter, v: string -> string) {
    && v("") == ""
    && (forall a, b {:trigger v(a + b)} :: v(a + b) == v(a) + v(b))
    && (forall s {:trigger c.normalize(s)} :: v(c.normalize(s)) == v(s))
  }

  lemma PrependRead(v: string -> string, c: Cutter, raw: string, kept: string, whole: string, segments: seq<string>)
    requires Reading(c, v) && whole == raw + kept
    ensures v(Concat(Prepend(c.normalize(raw), segments))) == v(raw) + v(Concat(segments))
    ensures v(whole) == v(raw) + v(kept)
  {
    var segment := c.normalize(raw);
    if segment != "" {
      assert Prepend(segment, segments)[1..] == segments;
    }
  }

  lemma {:induction false} FeedKeeps(v: string -> string, c: Cutter, p: Progress)
    requires Reading(c, v)
    ensures var (segments, end) := FeedFrom(c, p);
            v(p.buffer) == v(Concat(segments)) + v(end.buffer)
    decreases |p.buffer|
  {
    var k := c.cut(p.buffer, p.emitted);
    if k.None? {
    } else {
      FeedKeeps(v, c, Taken(c, p, k.value));
      PrependRead(v, c, p.buffer[..k.value], p.buffer[k.value..], p.buffer, FeedFrom(c, Taken(c, p, k.value)).0);
    }
  }

  lemma {:induction false} FlushKeeps(v: string -> string, c: Cutter, p: Progress)
    requires Reading(c, v)
    ensures v(p.buffer) == v(Concat(FlushFrom(c, p).0))
    decreases |p.buffer|
  {
    if |c.normalize(p.buffer)| > c.limit {
      var k := c.flushCut(p.buffer);
      FlushKeeps(v, c, Taken(c, p, k));
      PrependRead(v, c, p.buffer[..k], p.buffer[k..], p.buffer, FlushFrom(c, Taken(c, p, k)).0);
    } else {
      PrependRead(v, c, p.buffer, "", p.buffer, []);
    }
  }

  lemma Regroup(a: string, b: string, c: string, d: string, e: string, f: string, g: string)
    requires a + b == d + e && e + c == f + g
    ensures a + (b + c) == (d + f) + g
  {
    assert a + (b + c) == (a + b) + c;
    assert (d + e) + c == d + (e + c);
  }

  lemma {:induction false} PartsKeep(v: string -> string, c: Cutter, p: Progress, parts: seq<string>)
    requires Reading(c, v)
    ensures var (segments, end) := FeedParts(c, p, parts);
            v(p.buffer) + v(Concat(parts)) == v(Concat(segments)) + v(end.buffer)
    decreases |parts|
  {
    if parts == [] {
    } else {
      var grown := p.(buffer := p.buffer + parts[0]);
      var (now, next) := FeedFrom(c, grown);
      var (later, end) := FeedParts(c, next, parts[1..]);
      FeedKeeps(v, c, grown);
      PartsKeep(v, c, next, parts[1..]);
      ConcatAppend(now, later);
      Regroup(v(p.buffer), v(parts[0]), v(Concat(parts[1..])), v(Concat(now)), v(next.buffer), v(Concat(later)),
              v(end.buffer));
    }
  }

  /** Whatever reading of the text one takes, its segments read as the text does. */
  lemma StreamIsRead(v: string -> string, c: Cutter, parts: seq<string>)
    requires Reading(c, v)
    ensures var (fed, end) := FeedParts(c, Progress("", 0), parts);
            v(Concat(fed + FlushFrom(c, end).0)) == v(Concat(parts))
  {
    var (fed, end) := FeedParts(c, Progress("", 0), parts);
    PartsKeep(v, c, Progress("", 0), parts);
    FlushKeeps(v, c, end);
    ConcatAppend(fed, FlushFrom(c, end).0);
  }

  // ---- Collecting from the front ----

  function Extend(segments: seq<string>, segment: string): seq<string> {
    if segment == "" then segments else segments + [segment]
  }

  lemma FeedMore(c: Cutter, p: Progress, k: nat, segments: seq<string>)
    requires c.cut(p.buffer, p.emitted) == Some(k)
    ensures var (all, end) := FeedFrom(c, p);
            var (later, end') := FeedFrom(c, Taken(c, p, k));
            segments + all == Extend(segments, c.normalize(p.buffer[..k])) + later && end == end'
  {
  }

  lemma FlushMore(c: Cutter, p: Progress, segments: seq<string>)
    requires |c.normalize(p.buffer)| > c.limit
    ensures var k := c.flushCut(p.buffer);
            var (all, end) := FlushFrom(c, p);
            var (later, end') := FlushFrom(c, Taken(c, p, k));
            segments + all == Extend(segments, c.normalize(p.buffer[..k])) + later && end == end'
  {
  }
}
