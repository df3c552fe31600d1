/**
 Cutting synthesized PCM audio into transport frames (runtimes/qwen_tts.py, the two
 `stream_pcm16_frames` loops, which are the same).

 The synthesizer is a list of items; each look at the cancellation flag is one poll. The
 flag never falls again, because a token that stopped being current stays so
 (`Cancellation.NeverCurrentAgain`). Main results: `StreamFrames` emits `Frames` of the
 whole audio whatever its chunks, a prefix when cancelled; `FramesMeetSpecification` and
 `FramesAreUnique` say what `Frames` is.
 */
module Reframing {
  import opened Options
  import W = Wire

  datatype Item = Missing | Chunk(rate: nat, pcm: seq<byte>)

  datatype StreamError = EmptyItem | WrongRate

  const RATE: nat := 24_000

  predicate Good(item: Item) {
    item.Chunk? && item.rate == RATE
  }

  /** The audio of the first items, up to the first bad one. */
  function Audio(items: seq<Item>): seq<byte> {
    if items == [] || !Good(items[0]) then [] else items[0].pcm + Audio(items[1..])
  }

  function Zeros(n: nat): seq<byte> {
    seq(n, _ => 0)
  }

  /** The complete frames at the beginning of a stream. */
  function FullFrames(s: seq<byte>): seq<seq<byte>>
    decreases |s|
  {
    if |s| < W.FRAME_BYTES then [] else [s[..W.FRAME_BYTES]] + FullFrames(s[W.FRAME_BYTES..])
  }

  /** All frames of a stream, the last one padded with zeros. */
  function Frames(s: seq<byte>): seq<seq<byte>>
    decreases |s|
  {
    if s == [] then []
    else if |s| < W.FRAME_BYTES then [s + Zeros(W.FRAME_BYTES - |s|)]
    else [s[..W.FRAME_BYTES]] + Frames(s[W.FRAME_BYTES..])
  }

  function Flat(frames: seq<seq<byte>>): seq<byte> {
    if frames == [] then [] else frames[0] + Flat(frames[1..])
  }

  predicate AllWhole(frames: seq<seq<byte>>) {
    forall i :: 0 <= i < |frames| ==> |frames[i]| == W.FRAME_BYTES
  }

  /** The frames spell the stream, followed by fewer than 960 zeros. */
  predicate SpellsWith(frames: seq<seq<byte>>, s: seq<byte>, pad: nat) {
    pad < W.FRAME_BYTES && Flat(frames) == s + Zeros(pad)
  }

  /** `Frames` spells the stream; the number of frames is the length over 960, rounded up. */
  lemma {:induction false} FramesMeetSpecification(s: seq<byte>) returns (pad: nat)
    ensures AllWhole(Frames(s)) && SpellsWith(Frames(s), s, pad)
    ensures |Frames(s)| == (|s| + W.FRAME_BYTES - 1) / W.FRAME_BYTES
    decreases |s|
  {
    if s == [] {
      pad := 0;
    } else if |s| < W.FRAME_BYTES {
      pad := W.FRAME_BYTES - |s|;
      assert Flat(Frames(s)) == Frames(s)[0] + Flat([]);
    } else {
      var head, rest := s[..W.FRAME_BYTES], s[W.FRAME_BYTES..];
      pad := FramesMeetSpecification(rest);
      assert s == head + rest;
      assert Flat(Frames(s)) == head + Flat(Frames(rest));
    }
  }

  /** Nothing else spells the stream. */
  lemma {:induction false} FramesAreUnique(frames: seq<seq<byte>>, s: seq<byte>, pad: nat)
    requires AllWhole(frames) && SpellsWith(frames, s, pad)
    ensures frames == Frames(s)
    decreases |frames|
  {
    if frames == [] {
    } else {
      var head, rest := frames[0], frames[1..];
      assert |Flat(frames)| >= W.FRAME_BYTES;
      assert Flat(frames)[..W.FRAME_BYTES] == head && Flat(frames)[W.FRAME_BYTES..] == Flat(rest);
      if |s| < W.FRAME_BYTES {
        SizeOfFlat(rest);
        assert rest == [];
        assert Flat(rest) == [];
        assert head == s + Zeros(pad);
      } else {
        assert Flat(rest) == s[W.FRAME_BYTES..] + Zeros(pad);
        assert head == s[..W.FRAME_BYTES] && frames == [head] + rest;
        FramesAreUnique(rest, s[W.FRAME_BYTES..], pad);
      }
    }
  }

  lemma {:induction false} SizeOfFlat(frames: seq<seq<byte>>)
    requires AllWhole(frames)
    ensures |Flat(frames)| == W.FRAME_BYTES * |frames|
    decreases |frames|
  {
    if frames == [] {
    } else {
      SizeOfFlat(frames[1..]);
    }
  }

  lemma {:induction false} FlatSnoc(frames: seq<seq<byte>>, last: seq<byte>)
    ensures Flat(frames + [last]) == Flat(frames) + last
    decreases |frames|
  {
    if frames == [] {
      assert [last][1..] == [];
      assert Flat([last]) == last + Flat([]);
    } else {
      assert (frames + [last])[1..] == frames[1..] + [last];
      FlatSnoc(frames[1..], last);
    }
  }

  /** Whole frames in front of a stream are its first frames. */
  lemma {:induction false} FramesAfter(frames: seq<seq<byte>>, rest: seq<byte>)
    requires AllWhole(frames)
    ensures Frames(Flat(frames) + rest) == frames + Frames(rest)
    decreases |frames|
  {
    if frames == [] {
      assert [] + rest == rest;
    } else {
      var s := Flat(frames) + rest;
      assert s[..W.FRAME_BYTES] == frames[0];
      assert s[W.FRAME_BYTES..] == Flat(frames[1..]) + rest;
      FramesAfter(frames[1..], rest);
    }
  }

  lemma {:induction false} AudioStep(items: seq<Item>, i: nat)
    requires i < |items| && Good(items[i]) && forall j :: 0 <= j < i ==> Good(items[j])
    ensures Audio(items[..i + 1]) == Audio(items[..i]) + items[i].pcm
    decreases i
  {
    if i == 0 {
      assert items[..1][1..] == [] && items[..1][0] == items[0];
      assert Audio(items[..1]) == items[0].pcm + Audio([]);
    } else {
      AudioStep(items[1..], i - 1);
      assert items[1..][..i] == items[..i + 1][1..] && items[1..][..i - 1] == items[..i][1..];
    }
  }

  /** The audio before an item is the beginning of the audio of all items. */
  lemma {:induction false} AudioSplits(items: seq<Item>, i: nat) returns (rest: seq<byte>)
    requires i <= |items| && forall j :: 0 <= j < i ==> Good(items[j])
    ensures Audio(items) == Audio(items[..i]) + rest
    ensures i == |items| || !Good(items[i]) ==> rest == []
    decreases i
  {
    if i == 0 {
      rest := Audio(items);
    } else {
      rest := AudioSplits(items[1..], i - 1);
      assert items[1..][..i - 1] == items[..i][1..];
    }
  }

  ghost predicate Monotone(cancelled: nat -> bool) {
    forall i, j {:trigger cancelled(i), cancelled(j)} :: i <= j && cancelled(i) ==> cancelled(j)
  }

  /** The first poll that is answered with yes, if the stream gets that far. */
  predicate Stopped(cancelled: nat -> bool, polls: nat) {
    polls > 0 && cancelled(polls - 1)
  }

  /** Emits one frame while enough audio is at hand; true when the flag was up. */
  method EmitWhole(remainder: seq<byte>, sent: seq<seq<byte>>, cancelled: nat -> bool, polled: nat)
    returns (rest: seq<byte>, frames: seq<seq<byte>>, polls: nat, stop: bool)
    requires AllWhole(sent) && (polled == 0 || !cancelled(polled - 1))
    ensures AllWhole(frames) && sent <= frames && Flat(frames) + rest == Flat(sent) + remainder
    ensures stop == Stopped(cancelled, polls) && (!stop ==> |rest| < W.FRAME_BYTES)
  {
    rest, frames, polls, stop := remainder, sent, polled, false;
    while |rest| >= W.FRAME_BYTES
      invariant AllWhole(frames) && sent <= frames && Flat(frames) + rest == Flat(sent) + remainder
      invariant polls == 0 || !cancelled(polls - 1)
      decreases |rest|
    {
      polls := polls + 1;
      if cancelled(polls - 1) {
        stop := true;
        return;
      }
      var frame := rest[..W.FRAME_BYTES];
      FlatSnoc(frames, frame);
      assert rest == frame + rest[W.FRAME_BYTES..];
      frames := frames + [frame];
      rest := rest[W.FRAME_BYTES..];
    }
  }

  /** What has been sent, given what is at hand and what is still to come. */
  lemma SentSoFar(frames: seq<seq<byte>>, remainder: seq<byte>, later: seq<byte>, whole: seq<byte>)
    requires AllWhole(frames) && whole == Flat(frames) + remainder + later
    ensures frames <= Frames(whole)
    ensures later == [] && |remainder| < W.FRAME_BYTES ==>
              Frames(whole) == if remainder == [] then frames
                               else frames + [remainder + Zeros(W.FRAME_BYTES - |remainder|)]
  {
    assert whole == Flat(frames) + (remainder + later);
    FramesAfter(frames, remainder + later);
    assert later == [] ==> remainder + later == remainder;
  }

  /** Emits what is left, padded, unless the flag is up. */
  method EmitLast(remainder: seq<byte>, sent: seq<seq<byte>>, cancelled: nat -> bool, polled: nat)
    returns (frames: seq<seq<byte>>, polls: nat)
    requires |remainder| < W.FRAME_BYTES && AllWhole(sent)
    ensures polls == if remainder == [] then polled else polled + 1
    ensures frames == if remainder == [] || cancelled(polled) then sent
                      else sent + [remainder + Zeros(W.FRAME_BYTES - |remainder|)]
    ensures AllWhole(frames)
  {
    frames, polls := sent, polled;
    if remainder != [] {
      polls := polls + 1;
      if !cancelled(polls - 1) {
        frames := frames + [remainder + Zeros(W.FRAME_BYTES - |remainder|)];
      }
    }
  }

  /** Consumes the next item, which is good. */
  lemma Consume(items: seq<Item>, i: nat, frames: seq<seq<byte>>, remainder: seq<byte>) returns (later: seq<byte>)
    requires i < |items| && Good(items[i]) && forall j :: 0 <= j < i ==> Good(items[j])
    requires Flat(frames) + remainder == Audio(items[..i])
    ensures Flat(frames) + (remainder + items[i].pcm) == Audio(items[..i + 1])
    ensures Audio(items) == Audio(items[..i + 1]) + later
    ensures i + 1 == |items| || !Good(items[i + 1]) ==> later == []
  {
    AudioStep(items, i);
    assert Flat(frames) + (remainder + items[i].pcm) == Audio(items[..i]) + items[i].pcm;
    later := AudioSplits(items, i + 1);
  }

  method StreamFrames(blank: bool, items: seq<Item>, cancelled: nat -> bool)
    returns (frames: seq<seq<byte>>, r: Outcome<StreamError>, polls: nat)
    requires Monotone(cancelled)
    ensures blank ==> frames == [] && r.Pass? && polls == 0
    ensures AllWhole(frames) && frames <= Frames(Audio(items))
    ensures !blank && r.Pass? && !Stopped(cancelled, polls) ==>
              frames == Frames(Audio(items)) && forall i :: 0 <= i < |items| ==> Good(items[i])
    ensures r.Raised? ==> !Stopped(cancelled, polls) && FailsWith(items, r.error) && Withholds(frames, Audio(items))
  {
    frames, r, polls := [], Pass, 0;
    if blank {
      return;
    }
    var remainder: seq<byte> := [];
    var i := 0;
    ghost var later := AudioSplits(items, 0);
    while true
      invariant i <= |items| && forall j :: 0 <= j < i ==> Good(items[j])
      invariant AllWhole(frames) && Flat(frames) + remainder == Audio(items[..i])
      invariant |remainder| < W.FRAME_BYTES
      invariant Audio(items) == Audio(items[..i]) + later
      invariant i == |items| || !Good(items[i]) ==> later == []
      invariant polls == 0 || !cancelled(polls - 1)
      decreases |items| - i
    {
      SentSoFar(frames, remainder, later, Audio(items));
      polls := polls + 1;
      if cancelled(polls - 1) || i == |items| {
        break;
      }
      if !Good(items[i]) {
        assert Withholding(frames, Audio(items), remainder);
        r := Raised(Problem(items[i]));
        assert FailsAt(items, i, r.error);
        return;
      }
      later := Consume(items, i, frames, remainder);
      remainder := remainder + items[i].pcm;
      i := i + 1;
      var stop;
      remainder, frames, polls, stop := EmitWhole(remainder, frames, cancelled, polls);
      if stop {
        SentSoFar(frames, remainder, later, Audio(items));
        return;
      }
    }
    frames, polls := EmitLast(remainder, frames, cancelled, polls);
  }

  function Problem(item: Item): StreamError
    requires !Good(item)
  {
    if item.Missing? then EmptyItem else WrongRate
  }

  /** The first bad item decides the error. */
  predicate FailsAt(items: seq<Item>, i: nat, e: StreamError) {
    && i < |items| && !Good(items[i]) && (forall j :: 0 <= j < i ==> Good(items[j]))
    && e == Problem(items[i])
  }

  predicate FailsWith(items: seq<Item>, e: StreamError) {
    exists i :: 0 <= i < |items| && FailsAt(items, i, e)
  }

  predicate Withholding(frames: seq<seq<byte>>, audio: seq<byte>, rest: seq<byte>) {
    |rest| < W.FRAME_BYTES && audio == Flat(frames) + rest
  }

  /** Everything but an incomplete frame was sent. */
  ghost predicate Withholds(frames: seq<seq<byte>>, audio: seq<byte>) {
    exists rest :: Withholding(frames, audio, rest)
  }
}
