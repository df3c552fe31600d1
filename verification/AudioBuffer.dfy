/** The bounded, absolutely indexed audio buffer of one session (sessions.py). */
module AudioBuffers {
  import opened Options

  datatype BufferError = OddPayload | Overflow | OutsideBuffer

  /** `data` holds the samples from `first` up to `end`, two bytes each. */
  datatype Window = Window(data: seq<byte>, first: nat, end: nat) {
    predicate Valid() {
      first <= end && |data| == 2 * (end - first)
    }

    predicate Holds(start: int, stop: int) {
      first <= start <= stop <= end
    }

    function Append(payload: seq<byte>): Window {
      Window(data + payload, first, end + |payload| / 2)
    }

    function Slice(start: nat, stop: nat): seq<byte>
      requires Valid() && Holds(start, stop)
    {
      data[2 * (start - first)..2 * (stop - first)]
    }

    function DiscardBefore(sample: nat): Window
      requires Valid() && Holds(sample, end)
    {
      Window(data[2 * (sample - first)..], sample, end)
    }
  }

  const EMPTY := Window([], 0, 0)

  /** The window shows a stretch of a longer stream that begins `base` samples before index 0. */
  predicate Shows(w: Window, stream: seq<byte>, base: nat) {
    w.Valid() && |stream| == 2 * (base + w.end)
    && w.data == stream[2 * (base + w.first)..]
  }

  lemma AppendShows(w: Window, stream: seq<byte>, base: nat, payload: seq<byte>)
    requires Shows(w, stream, base) && |payload| % 2 == 0
    ensures Shows(w.Append(payload), stream + payload, base)
  {
  }

  lemma SliceShows(w: Window, stream: seq<byte>, base: nat, start: nat, stop: nat)
    requires Shows(w, stream, base) && w.Holds(start, stop)
    ensures w.Slice(start, stop) == stream[2 * (base + start)..2 * (base + stop)]
  {
  }

  lemma DiscardShows(w: Window, stream: seq<byte>, base: nat, sample: nat)
    requires Shows(w, stream, base) && w.Holds(sample, w.end)
    ensures Shows(w.DiscardBefore(sample), stream, base)
  {
  }

  class BoundedAudioBuffer {
    const maxBytes: nat
    var data: seq<byte>
    var firstSample: nat
    var endSample: nat

    function View(): Window
      reads this
    {
      Window(data, firstSample, endSample)
    }

    constructor (maxSeconds: nat, sampleRate: nat)
      ensures View() == EMPTY && maxBytes == maxSeconds * sampleRate * 2
    {
      maxBytes := maxSeconds * sampleRate * 2;
      data, firstSample, endSample := [], 0, 0;
    }

    method Append(payload: seq<byte>) returns (r: Outcome<BufferError>)
      modifies this
      ensures r == if |payload| % 2 == 1 then Raised(OddPayload)
                   else if old(|data|) + |payload| > maxBytes then Raised(Overflow) else Pass
      ensures View() == if r.Pass? then old(View()).Append(payload) else old(View())
    {
      if |payload| % 2 != 0 {
        return Raised(OddPayload);
      }
      if |data| + |payload| > maxBytes {
        return Raised(Overflow);
      }
      data := data + payload;
      endSample := endSample + |payload| / 2;
      r := Pass;
    }

    method SliceSamples(start: int, end: int) returns (r: Result<seq<byte>, BufferError>)
      requires View().Valid()
      ensures r.Ok? <==> View().Holds(start, end)
      ensures r.Ok? ==> r.value == View().Slice(start, end)
    {
      if start < firstSample || end > endSample || end < start {
        return Err(OutsideBuffer);
      }
      var offset := (start - firstSample) * 2;
      var length := (end - start) * 2;
      r := Ok(data[offset..offset + length]);
    }

    method DiscardBefore(sample: int) returns (r: Outcome<BufferError>)
      requires View().Valid()
      modifies this
      ensures r.Pass? <==> old(View()).Holds(sample, old(endSample))
      ensures View() == if r.Pass? then old(View()).DiscardBefore(sample) else old(View())
      ensures View().Valid()
    {
      if !(firstSample <= sample <= endSample) {
        return Raised(OutsideBuffer);
      }
      var count := (sample - firstSample) * 2;
      data := data[count..];
      firstSample := sample;
      r := Pass;
    }

    method Clear()
      modifies this
      ensures View() == EMPTY
    {
      data := [];
      firstSample := 0;
      endSample := 0;
    }
  }
}
