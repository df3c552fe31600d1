/**
 Admission without a queue: slots and their states (capacity.py).

 `ClaimsUntilFull` says that exactly the available slots can be claimed, each once.
 */
module Capacity {
  import opened Options

  datatype SlotState = Idle | Active | Draining | Stuck

  /** `holder` numbers the session that claimed the slot. */
  datatype Slot = Slot(state: SlotState, holder: Option<nat>)

  const VACANT := Slot(Idle, None)

  function Count(slots: seq<Slot>, state: SlotState): nat {
    if slots == [] then 0 else (if slots[|slots| - 1].state == state then 1 else 0) + Count(slots[..|slots| - 1], state)
  }

  /** The first idle slot from `i` on. */
  function FirstIdle(slots: seq<Slot>, i: nat): (r: Option<nat>)
    requires i <= |slots|
    ensures r.Some? ==> i <= r.value < |slots| && slots[r.value].state.Idle?
                        && forall j :: i <= j < r.value ==> !slots[j].state.Idle?
    ensures r.None? ==> forall j :: i <= j < |slots| ==> !slots[j].state.Idle?
    decreases |slots| - i
  {
    if i == |slots| then None else if slots[i].state.Idle? then Some(i) else FirstIdle(slots, i + 1)
  }

  datatype Pool = Pool(slots: seq<Slot>, draining: bool) {
    function Available(): nat {
      if draining then 0 else Count(slots, Idle)
    }

    /** The slot that the next claim gets. */
    function Next(): (r: Option<nat>)
      ensures r.Some? ==> !draining && r.value < |slots| && slots[r.value].state.Idle?
                          && forall j :: 0 <= j < r.value ==> !slots[j].state.Idle?
      ensures r.None? ==> draining || forall j :: 0 <= j < |slots| ==> !slots[j].state.Idle?
    {
      if draining then None else FirstIdle(slots, 0)
    }

    function Claim(session: nat): Pool {
      if Next().None? then this else this.(slots := slots[Next().value := Slot(Active, Some(session))])
    }

    function BeginRelease(i: nat): Pool
      requires i < |slots|
    {
      if slots[i].state.Active? then this.(slots := slots[i := slots[i].(state := Draining)]) else this
    }

    function CompleteRelease(i: nat, drained: bool): Pool
      requires i < |slots|
    {
      this.(slots := slots[i := if drained then VACANT else slots[i].(state := Stuck)])
    }

    function BeginServiceDrain(): Pool {
      this.(draining := true)
    }
  }

  lemma {:induction false} CountUpdate(slots: seq<Slot>, i: nat, slot: Slot, state: SlotState)
    requires i < |slots|
    ensures Count(slots[i := slot], state) + (if slots[i].state == state then 1 else 0)
            == Count(slots, state) + (if slot.state == state then 1 else 0)
    decreases |slots|
  {
    var n := |slots| - 1;
    if i == n {
      assert slots[i := slot][..n] == slots[..n];
    } else {
      assert slots[i := slot][..n] == slots[..n][i := slot];
      CountUpdate(slots[..n], i, slot, state);
    }
  }

  lemma {:induction false} CountNone(slots: seq<Slot>, state: SlotState)
    ensures Count(slots, state) == 0 <==> forall j :: 0 <= j < |slots| ==> slots[j].state != state
    decreases |slots|
  {
    if slots == [] {
    } else {
      CountNone(slots[..|slots| - 1], state);
      assert forall j :: 0 <= j < |slots| - 1 ==> slots[..|slots| - 1][j] == slots[j];
    }
  }

  /** A claim succeeds exactly when a slot is available, and uses up one. */
  lemma ClaimTakesOne(p: Pool, session: nat)
    ensures p.Next().Some? <==> p.Available() > 0
    ensures p.Next().Some? ==> p.Claim(session).Available() == p.Available() - 1
  {
    CountNone(p.slots, Idle);
    if p.Next().Some? {
      CountUpdate(p.slots, p.Next().value, Slot(Active, Some(session)), Idle);
    }
  }

  /** The slots that the given number of claims in a row obtain, in order. */
  function ClaimAll(p: Pool, session: nat, n: nat): seq<nat>
    decreases n
  {
    if n == 0 then []
    else (if p.Next().Some? then [p.Next().value] else []) + ClaimAll(p.Claim(session), session + 1, n - 1)
  }

  /** Any number of claims in a row obtain the available slots, each once, and no more. */
  lemma {:induction false} ClaimsUntilFull(p: Pool, session: nat, n: nat)
    ensures var got := ClaimAll(p, session, n);
            && |got| == (if n < p.Available() then n else p.Available())
            && (forall k :: 0 <= k < |got| ==> got[k] < |p.slots| && p.slots[got[k]].state.Idle?)
            && (forall k, m :: 0 <= k < m < |got| ==> got[k] != got[m])
    decreases n
  {
    if n == 0 {
    } else {
      ClaimTakesOne(p, session);
      ClaimsUntilFull(p.Claim(session), session + 1, n - 1);
      var later := ClaimAll(p.Claim(session), session + 1, n - 1);
      if p.Next().None? {
        assert ClaimAll(p, session, n) == later;
      } else {
        assert forall k :: 0 <= k < |later| ==> p.slots[later[k]].state.Idle? && later[k] != p.Next().value;
      }
    }
  }

  class SessionSlot {
    const index: nat
    var state: SlotState
    var holder: Option<nat>

    function View(): Slot
      reads this
    {
      Slot(state, holder)
    }

    constructor (index: nat)
      ensures View() == VACANT && this.index == index
    {
      this.index, state, holder := index, Idle, None;
    }
  }

  datatype CapacityError = SlotCount

  class CapacityManager {
    var slots: seq<SessionSlot>
    var draining: bool

    predicate Valid()
      reads this, slots
    {
      forall i, j :: 0 <= i < j < |slots| ==> slots[i] != slots[j]
    }

    ghost function View(): Pool
      reads this, slots
    {
      Pool(Shown(slots), draining)
    }

    constructor (maxSessions: nat)
      requires 1 <= maxSessions <= 64
      ensures Valid() && View() == Pool(seq(maxSessions, _ => VACANT), false)
      ensures fresh(slots)
    {
      slots, draining := [], false;
      new;
      var i := 0;
      while i < maxSessions
        invariant i <= maxSessions && |slots| == i && Valid() && !draining && fresh(slots)
        invariant forall j :: 0 <= j < i ==> slots[j].View() == VACANT
        modifies this
      {
        var slot := new SessionSlot(i);
        slots := slots + [slot];
        i := i + 1;
      }
      assert Shown(slots) == seq(maxSessions, _ => VACANT);
    }

    static method Create(maxSessions: int) returns (r: Result<CapacityManager, CapacityError>)
      ensures r.Ok? <==> 1 <= maxSessions <= 64
      ensures r.Ok? ==> fresh(r.value) && fresh(r.value.slots) && r.value.Valid()
                        && r.value.View() == Pool(seq(maxSessions, _ => VACANT), false)
    {
      if !(1 <= maxSessions <= 64) {
        return Err(SlotCount);
      }
      var manager := new CapacityManager(maxSessions);
      r := Ok(manager);
    }

    method Claim(session: nat) returns (slot: Option<nat>)
      requires Valid()
      modifies slots
      ensures slots == old(slots) && draining == old(draining)
      ensures slot == old(View()).Next() && View() == old(View()).Claim(session)
    {
      if draining {
        return None;
      }
      var i := 0;
      while i < |slots|
        invariant i <= |slots|
        invariant FirstIdle(Shown(slots), i) == FirstIdle(Shown(slots), 0)
      {
        if slots[i].state.Idle? {
          ghost var was := Shown(slots);
          slots[i].state := Active;
          slots[i].holder := Some(session);
          assert Shown(slots) == was[i := Slot(Active, Some(session))];
          return Some(i);
        }
        i := i + 1;
      }
      slot := None;
    }

    method BeginRelease(i: nat)
      requires Valid() && i < |slots|
      modifies slots[i]
      ensures slots == old(slots) && draining == old(draining) && View() == old(View()).BeginRelease(i)
    {
      ghost var was := Shown(slots);
      if slots[i].state.Active? {
        slots[i].state := Draining;
        assert Shown(slots) == was[i := was[i].(state := Draining)];
      }
    }

    method CompleteRelease(i: nat, drained: bool)
      requires Valid() && i < |slots|
      modifies slots[i]
      ensures slots == old(slots) && draining == old(draining) && View() == old(View()).CompleteRelease(i, drained)
    {
      ghost var was := Shown(slots);
      if drained {
        slots[i].state := Idle;
        slots[i].holder := None;
      } else {
        slots[i].state := Stuck;
      }
      assert Shown(slots) == was[i := if drained then VACANT else was[i].(state := Stuck)];
    }

    method BeginServiceDrain()
      requires Valid()
      modifies this
      ensures Valid() && slots == old(slots) && View() == old(View()).BeginServiceDrain()
    {
      draining := true;
    }

    method Available() returns (n: nat)
      requires Valid()
      ensures n == View().Available()
    {
      if draining {
        return 0;
      }
      n := 0;
      var i := 0;
      while i < |slots|
        invariant i <= |slots| && n == Count(Shown(slots)[..i], Idle)
      {
        assert Shown(slots)[..i + 1][..i] == Shown(slots)[..i];
        if slots[i].state.Idle? {
          n := n + 1;
        }
        i := i + 1;
      }
      assert Shown(slots)[..i] == Shown(slots);
    }
  }

  ghost function Shown(slots: seq<SessionSlot>): seq<Slot>
    reads slots
  {
    seq(|slots|, i requires 0 <= i < |slots| reads slots => slots[i].View())
  }
}
