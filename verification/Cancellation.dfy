/**
 Generation-tagged cancellation of one session (cancellation.py).

 A token names one generation and the epoch in which it was issued. The value
 functions give the meaning of each operation; the class performs them in place.
 */
module Cancellation {
  import opened Options

  datatype Token = Token(turnId: nat, revision: int, generation: nat, epoch: nat)

  datatype State = State(epoch: nat, current: Option<Token>) {

    /** A recorded token always belongs to the present epoch. */
    predicate Valid() {
      current.Some? ==> current.value.epoch == epoch
    }

    predicate IsCurrent(token: Token) {
      current == Some(token) && token.epoch == epoch
    }

    function Start(turnId: nat, revision: int, generation: nat): State {
      State(epoch + 1, Some(Token(turnId, revision, generation, epoch + 1)))
    }

    /** A cancellation without a generation hits whatever is current. */
    predicate Hits(target: Option<nat>) {
      current.Some? && (target.None? || target.value == current.value.generation)
    }

    function Cancel(target: Option<nat>): State {
      if Hits(target) then State(epoch + 1, None) else this
    }

    function Finish(token: Token): State {
      if IsCurrent(token) then this.(current := None) else this
    }

    function Reset(): State {
      State(epoch + 1, None)
    }
  }

  const INITIAL := State(0, None)

  datatype Op =
    | OpStart(turnId: nat, revision: int, generation: nat)
    | OpCancel(target: Option<nat>)
    | OpFinish(token: Token)
    | OpReset

  function Apply(st: State, op: Op): State {
    match op
    case OpStart(t, r, g) => st.Start(t, r, g)
    case OpCancel(g) => st.Cancel(g)
    case OpFinish(t) => st.Finish(t)
    case OpReset => st.Reset()
  }

  function ApplyAll(st: State, ops: seq<Op>): State
    decreases |ops|
  {
    if ops == [] then st else ApplyAll(Apply(st, ops[0]), ops[1..])
  }

  /** The operations that take a current token out of force. */
  predicate Ends(op: Op, token: Token) {
    match op
    case OpStart(_, _, _) => true
    case OpCancel(g) => g.None? || g.value == token.generation
    case OpFinish(t) => t == token
    case OpReset => true
  }

  /** Once a token of the past or present is not current, no later operation revives it. */
  lemma {:induction false} NeverCurrentAgain(st: State, ops: seq<Op>, token: Token)
    requires st.Valid() && token.epoch <= st.epoch && !st.IsCurrent(token)
    ensures !ApplyAll(st, ops).IsCurrent(token)
    decreases |ops|
  {
    if ops == [] {
    } else {
      NeverCurrentAgain(Apply(st, ops[0]), ops[1..], token);
    }
  }

  /** A current token stays current exactly until the first operation that ends it. */
  lemma {:induction false} CurrentUntilEnded(st: State, ops: seq<Op>, token: Token)
    requires st.Valid() && st.IsCurrent(token)
    ensures ApplyAll(st, ops).IsCurrent(token) <==> forall i :: 0 <= i < |ops| ==> !Ends(ops[i], token)
    decreases |ops|
  {
    if ops == [] {
    } else {
      var next := Apply(st, ops[0]);
      if Ends(ops[0], token) {
        NeverCurrentAgain(next, ops[1..], token);
      } else {
        assert next == st;
        CurrentUntilEnded(next, ops[1..], token);
        assert forall i :: 1 <= i < |ops| ==> ops[i] == ops[1..][i - 1];
        assert forall i :: 0 <= i < |ops[1..]| ==> ops[1..][i] == ops[i + 1];
      }
    }
  }

  class GenerationCancellation {
    var epoch: nat
    var current: Option<Token>

    function View(): State
      reads this
    {
      State(epoch, current)
    }

    constructor ()
      ensures View() == INITIAL
    {
      epoch, current := 0, None;
    }

    method Start(turnId: nat, revision: int, generation: nat) returns (token: Token)
      modifies this
      ensures View() == old(View()).Start(turnId, revision, generation)
      ensures View().IsCurrent(token) && token.generation == generation
      ensures token.turnId == turnId && token.revision == revision && token.epoch == epoch == old(epoch) + 1
    {
      epoch := epoch + 1;
      token := Token(turnId, revision, generation, epoch);
      current := Some(token);
    }

    method Cancel(generation: Option<nat>) returns (cancelled: Option<Token>)
      modifies this
      ensures View() == old(View()).Cancel(generation)
      ensures cancelled == if old(current).Some?
                              && (generation.None? || generation.value == old(current).value.generation)
                           then old(current) else None
      ensures if cancelled.Some? then current == None && epoch == old(epoch) + 1
              else current == old(current) && epoch == old(epoch)
    {
      if current.None? {
        return None;
      }
      if generation.Some? && generation.value != current.value.generation {
        return None;
      }
      cancelled := current;
      epoch := epoch + 1;
      current := None;
    }

    method Finish(token: Token) returns (finished: bool)
      modifies this
      ensures View() == old(View()).Finish(token)
      ensures finished <==> old(View()).IsCurrent(token)
    {
      if !View().IsCurrent(token) {
        return false;
      }
      current := None;
      finished := true;
    }

    method Reset()
      modifies this
      ensures View() == old(View()).Reset()
      ensures current == None && epoch == old(epoch) + 1
    {
      epoch := epoch + 1;
      current := None;
    }
  }
}
