/**
 The bounded, serialized sender of one WebSocket (realtime.py, WebSocketTransport).

 `wire` lists the events whose transmission has begun; `sending` is the one whose
 transmission has not yet returned.
 */
module Transport {
  import opened Options
  import opened Wire

  datatype Outbound = Outbound(
    queue: seq<Event>,
    cancelled: set<nat>,
    sending: Option<Event>,
    wire: seq<Event>)
  {
    /** Everything handed over and not purged, in order. */
    function Log(): seq<Event> {
      wire + queue
    }

    predicate Suppressed(e: Event) {
      e.AudioDelta? && e.generation in cancelled
    }

    function Send(e: Event): Outbound {
      if Suppressed(e) then this else this.(queue := queue + [e])
    }

    function CancelGeneration(generation: nat): Outbound {
      this.(cancelled := cancelled + {generation}, queue := Purge(queue, generation))
    }

    /** The sender picks up the next event; a cancelled audio frame is skipped. */
    function Take(): Outbound
      requires sending.None? && queue != []
    {
      var rest := this.(queue := queue[1..]);
      if Suppressed(queue[0]) then rest else rest.(sending := Some(queue[0]), wire := wire + [queue[0]])
    }

    /** The transmission returned; a finished response needs no purge mark any more. */
    function Complete(): Outbound
      requires sending.Some?
    {
      var e := sending.value;
      this.(sending := None, cancelled := if e.Done? then cancelled - {e.generation} else cancelled)
    }
  }

  const EMPTY := Outbound([], {}, None, [])

  lemma {:induction false} PurgeConcat(a: seq<Event>, b: seq<Event>, generation: nat)
    ensures Purge(a + b, generation) == Purge(a, generation) + Purge(b, generation)
  {
    if b == [] {
      assert a + b == a;
    } else {
      var front := b[..|b| - 1];
      assert (a + b)[..|a + b| - 1] == a + front;
      PurgeConcat(a, front, generation);
    }
  }

  lemma {:induction false} PurgeMembers(events: seq<Event>, generation: nat, e: Event)
    ensures e in Purge(events, generation) <==> e in events && !AudioOf(e, generation)
  {
    if events == [] {
    } else {
      var front := events[..|events| - 1];
      PurgeMembers(front, generation, e);
      assert events == front + [events[|events| - 1]];
    }
  }

  datatype SendError = TransportClosed | SenderUnavailable | OutboundQueueFull

  datatype StartError = AlreadyStarted

  class WebSocketTransport {
    const maxMessages: nat
    var queue: seq<Event>
    var cancelledGenerations: set<nat>
    var sending: Option<Event>
    var wire: seq<Event>
    var closed: bool
    var started: bool
    var senderRuns: bool

    function View(): Outbound
      reads this
    {
      Outbound(queue, cancelledGenerations, sending, wire)
    }

    /** Why an event that is not swallowed cannot be queued. */
    function Obstacle(): Option<SendError>
      reads this
    {
      if closed then Some(TransportClosed)
      else if !senderRuns then Some(SenderUnavailable)
      else if |queue| >= maxMessages then Some(OutboundQueueFull)
      else None
    }

    constructor (maxMessages: nat)
      ensures View() == EMPTY && this.maxMessages == maxMessages && !closed && !started && !senderRuns
    {
      this.maxMessages := maxMessages;
      queue, cancelledGenerations, sending, wire := [], {}, None, [];
      closed, started, senderRuns := false, false, false;
    }

    method Start() returns (r: Outcome<StartError>)
      modifies this`started, this`senderRuns
      ensures r == if old(started) then Raised(AlreadyStarted) else Pass
      ensures started && senderRuns == (if old(started) then old(senderRuns) else true)
    {
      if started {
        return Raised(AlreadyStarted);
      }
      started, senderRuns := true, true;
      r := Pass;
    }

    /** The sender ends on its own when a transmission fails. */
    method SenderEnds()
      modifies this`senderRuns
      ensures !senderRuns
    {
      senderRuns := false;
    }

    /** The first part of closing; a second call does nothing. */
    method Close()
      modifies this`closed
      ensures closed
    {
      closed := true;
    }

    method Send(e: Event) returns (r: Outcome<SendError>)
      modifies this`queue
      ensures r == if closed then Raised(TransportClosed)
                   else if !senderRuns then Raised(SenderUnavailable)
                   else if e.AudioDelta? && e.generation in cancelledGenerations then Pass
                   else if old(|queue|) >= maxMessages then Raised(OutboundQueueFull)
                   else Pass
      ensures View() == if r.Pass? then old(View()).Send(e) else old(View())
    {
      if closed {
        return Raised(TransportClosed);
      }
      if !senderRuns {
        return Raised(SenderUnavailable);
      }
      if e.AudioDelta? && e.generation in cancelledGenerations {
        return Pass;
      }
      if |queue| >= maxMessages {
        return Raised(OutboundQueueFull);
      }
      queue := queue + [e];
      r := Pass;
    }

    method CancelGeneration(generation: nat) returns (dropped: nat)
      modifies this`queue, this`cancelledGenerations
      ensures View() == old(View()).CancelGeneration(generation)
      ensures dropped == old(|queue|) - |queue|
    {
      cancelledGenerations := cancelledGenerations + {generation};
      var retained;
      retained, dropped := Drain(generation);
      var i := 0;
      while i < |retained|
        invariant i <= |retained|
        invariant queue == retained[..i]
        modifies this`queue
      {
        queue := queue + [retained[i]];
        i := i + 1;
      }
    }

    /** Empties the queue, counting the audio of one generation and keeping the rest in order. */
    method Drain(generation: nat) returns (retained: seq<Event>, dropped: nat)
      modifies this`queue
      ensures queue == [] && retained == Purge(old(queue), generation)
      ensures dropped + |retained| == old(|queue|)
    {
      retained, dropped := [], 0;
      ghost var taken: seq<Event> := [];
      while queue != []
        invariant taken + queue == old(queue)
        invariant retained == Purge(taken, generation)
        invariant dropped + |retained| == |taken|
        decreases |queue|
      {
        var e := queue[0];
        queue := queue[1..];
        ghost var more := taken + [e];
        assert more[..|more| - 1] == taken;
        if e.AudioDelta? && e.generation == generation {
          dropped := dropped + 1;
        } else {
          retained := retained + [e];
        }
        taken := more;
      }
      assert taken == old(queue);
    }

    /** One pass of the send loop up to the point where the transmission suspends. */
    method TakeNext()
      requires sending.None? && queue != []
      modifies this`queue, this`sending, this`wire
      ensures View() == old(View()).Take()
      ensures queue == old(queue[1..])
      ensures var e := old(queue[0]);
              if e.AudioDelta? && e.generation in cancelledGenerations then sending == None && wire == old(wire)
              else sending == Some(e) && wire == old(wire) + [e]
    {
      var e := queue[0];
      queue := queue[1..];
      if e.AudioDelta? && e.generation in cancelledGenerations {
        return;
      }
      sending := Some(e);
      wire := wire + [e];
    }

    /** The rest of the pass, once the transmission has returned. */
    method Transmitted()
      requires sending.Some?
      modifies this`sending, this`cancelledGenerations
      ensures View() == old(View()).Complete()
      ensures sending == None
      ensures var e := old(sending).value;
              cancelledGenerations == old(cancelledGenerations) - if e.Done? then {e.generation} else {}
    {
      var e := sending.value;
      sending := None;
      if e.Done? {
        cancelledGenerations := cancelledGenerations - {e.generation};
      }
    }
  }
}
