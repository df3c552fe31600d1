/**
 What may happen to the waiting line of one session in the turn and transcription
 schedulers, told by moves at its two ends and by withdrawals, without any queue.

 Main result: `FirstComeFirstServed` (whoever joined is served in the order of joining,
 is still waiting in that order, or was withdrawn).
 */
module WaitingLine {
  import opened RoundRobin

  datatype Move =
    | Stays
    | Joins(job: Job)
    | Served
    | Quits(id: nat)
    | Cleared

  function Ids(jobs: seq<Job>): set<nat> {
    set i | 0 <= i < |jobs| :: jobs[i].id
  }

  predicate Distinct(jobs: seq<Job>) {
    jobs == [] || (jobs[0].id !in Ids(jobs[1..]) && Distinct(jobs[1..]))
  }

  /** The jobs whose id is not in the set, in order. */
  function Keep(jobs: seq<Job>, gone: set<nat>): seq<Job> {
    if jobs == [] then []
    else (if jobs[0].id in gone then [] else [jobs[0]]) + Keep(jobs[1..], gone)
  }

  function After(line: seq<Job>, m: Move): seq<Job> {
    match m
    case Stays => line
    case Joins(job) => line + [job]
    case Served => if line == [] then [] else line[1..]
    case Quits(id) => Keep(line, {id})
    case Cleared => []
  }

  /** The job that a move adds, and the one it serves. */
  function Added(m: Move): seq<Job> {
    if m.Joins? then [m.job] else []
  }

  function Head(line: seq<Job>, m: Move): seq<Job> {
    if m.Served? && line != [] then [line[0]] else []
  }

  function AfterAll(line: seq<Job>, moves: seq<Move>): seq<Job>
    decreases |moves|
  {
    if moves == [] then line else AfterAll(After(line, moves[0]), moves[1..])
  }

  function Joined(moves: seq<Move>): seq<Job> {
    if moves == [] then [] else Added(moves[0]) + Joined(moves[1..])
  }

  function Taken(line: seq<Job>, moves: seq<Move>): seq<Job>
    decreases |moves|
  {
    if moves == [] then []
    else Head(line, moves[0]) + Taken(After(line, moves[0]), moves[1..])
  }

  /** The jobs that a move withdraws. */
  function Drops(line: seq<Job>, m: Move): set<nat> {
    match m
    case Quits(id) => Ids(line) * {id}
    case Cleared => Ids(line)
    case _ => {}
  }

  function Lost(line: seq<Job>, moves: seq<Move>): set<nat>
    decreases |moves|
  {
    if moves == [] then {} else Drops(line, moves[0]) + Lost(After(line, moves[0]), moves[1..])
  }

  lemma IdsAppend(x: seq<Job>, y: seq<Job>)
    ensures Ids(x + y) == Ids(x) + Ids(y)
  {
    assert forall i :: 0 <= i < |x| ==> (x + y)[i] == x[i];
    assert forall i :: 0 <= i < |y| ==> (x + y)[|x| + i] == y[i];
  }

  lemma IdsSplit(x: seq<Job>)
    requires x != []
    ensures Ids(x) == {x[0].id} + Ids(x[1..])
  {
    IdsAppend([x[0]], x[1..]);
    assert [x[0]] + x[1..] == x && Ids([x[0]]) == {[x[0]][0].id};
  }

  lemma {:induction false} KeepAppend(x: seq<Job>, y: seq<Job>, gone: set<nat>)
    ensures Keep(x + y, gone) == Keep(x, gone) + Keep(y, gone)
    decreases |x|
  {
    if x == [] {
      assert x + y == y;
    } else {
      assert (x + y)[1..] == x[1..] + y;
      KeepAppend(x[1..], y, gone);
    }
  }

  lemma {:induction false} KeepTwice(x: seq<Job>, g: set<nat>, h: set<nat>)
    ensures Keep(Keep(x, g), h) == Keep(x, g + h)
    decreases |x|
  {
    if x == [] {
    } else {
      KeepTwice(x[1..], g, h);
      if x[0].id in g {
        assert Keep(x, g) == Keep(x[1..], g);
      } else {
        assert Keep(x, g)[1..] == Keep(x[1..], g);
      }
    }
  }

  lemma {:induction false} KeepIds(x: seq<Job>, g: set<nat>)
    ensures Ids(Keep(x, g)) == Ids(x) - g
    decreases |x|
  {
    if x == [] {
    } else {
      KeepIds(x[1..], g);
      IdsSplit(x);
      IdsAppend(if x[0].id in g then [] else [x[0]], Keep(x[1..], g));
      assert x[0].id !in g ==> Ids([x[0]]) == {[x[0]][0].id};
    }
  }

  /** Only the ids that occur matter. */
  lemma {:induction false} KeepSame(x: seq<Job>, g: set<nat>, h: set<nat>)
    requires Ids(x) * g == Ids(x) * h
    ensures Keep(x, g) == Keep(x, h)
    decreases |x|
  {
    if x == [] {
    } else {
      IdsSplit(x);
      assert x[0].id in Ids(x) * g <==> x[0].id in g;
      assert x[0].id in Ids(x) * h <==> x[0].id in h;
      assert forall k :: k in Ids(x[1..]) * g ==> k in Ids(x) * g;
      assert forall k :: k in Ids(x[1..]) * h ==> k in Ids(x) * h;
      KeepSame(x[1..], g, h);
    }
  }

  lemma {:induction false} KeepAll(x: seq<Job>)
    ensures Keep(x, {}) == x
    decreases |x|
  {
    if x == [] {
    } else {
      KeepAll(x[1..]);
    }
  }

  lemma {:induction false} KeepNothing(x: seq<Job>, g: set<nat>)
    requires Ids(x) <= g
    ensures Keep(x, g) == []
    decreases |x|
  {
    if x == [] {
    } else {
      IdsSplit(x);
      KeepNothing(x[1..], g);
    }
  }

  lemma {:induction false} DistinctParts(x: seq<Job>, y: seq<Job>)
    ensures Distinct(x + y) ==> Distinct(y) && Ids(x) !! Ids(y)
    decreases |x|
  {
    if x == [] {
      assert x + y == y;
    } else {
      assert (x + y)[1..] == x[1..] + y;
      DistinctParts(x[1..], y);
      IdsAppend(x[1..], y);
      IdsSplit(x);
    }
  }

  lemma {:induction false} KeepDistinct(x: seq<Job>, y: seq<Job>, g: set<nat>)
    requires Distinct(x + y)
    ensures Distinct(Keep(x, g) + y)
    decreases |x|
  {
    if x == [] {
    } else {
      assert (x + y)[1..] == x[1..] + y;
      KeepDistinct(x[1..], y, g);
      if x[0].id in g {
        assert Keep(x, g) == Keep(x[1..], g);
      } else {
        IdsAppend(Keep(x[1..], g), y);
        IdsAppend(x[1..], y);
        KeepIds(x[1..], g);
        assert (Keep(x, g) + y)[1..] == Keep(x[1..], g) + y;
      }
    }
  }

  lemma {:induction false} LostAreKnown(line: seq<Job>, moves: seq<Move>)
    ensures Lost(line, moves) <= Ids(line) + Ids(Joined(moves))
    decreases |moves|
  {
    if moves == [] {
    } else {
      var m, rest := moves[0], moves[1..];
      LostAreKnown(After(line, m), rest);
      IdsAppend(Added(m), Joined(rest));
      match m
      case Joins(job) => IdsAppend(line, [job]);
      case Served =>
        if line != [] {
          IdsSplit(line);
        }
      case Quits(id) => KeepIds(line, {id});
      case _ =>
    }
  }

  /** Withdrawing `g` from the line: nothing behind it is touched. */
  lemma WithdrawKeepsOrder(line: seq<Job>, g: set<nat>, later: seq<Job>, lost: set<nat>)
    requires Distinct(line + later)
    ensures Distinct(Keep(line, g) + later)
    ensures Keep(line + later, Ids(line) * g + lost) == Keep(Keep(line, g) + later, lost)
  {
    var gone := Ids(line) * g;
    KeepDistinct(line, later, g);
    KeepAppend(line, later, gone + lost);
    KeepAppend(Keep(line, g), later, lost);
    KeepSame(line, g, gone);
    KeepTwice(line, gone, lost);
    DistinctParts(line, later);
    KeepSame(later, gone + lost, lost);
  }

  lemma ServeKeepsOrder(line: seq<Job>, later: seq<Job>, lost: set<nat>)
    requires line != [] && Distinct(line + later) && lost <= Ids(line[1..]) + Ids(later)
    ensures Distinct(line[1..] + later)
    ensures Keep(line + later, lost) == [line[0]] + Keep(line[1..] + later, lost)
  {
    assert (line + later)[1..] == line[1..] + later;
    IdsAppend(line[1..], later);
  }

  /** One move, given that the later ones withdraw only who still is there. */
  lemma MoveKeepsOrder(line: seq<Job>, m: Move, later: seq<Job>, lost: set<nat>)
    requires Distinct(line + Added(m) + later)
    requires lost <= Ids(After(line, m)) + Ids(later)
    ensures Distinct(After(line, m) + later)
    ensures Keep(line + Added(m) + later, Drops(line, m) + lost)
            == Head(line, m) + Keep(After(line, m) + later, lost)
  {
    assert !m.Joins? ==> line + Added(m) == line;
    assert Drops(line, m) == {} ==> Drops(line, m) + lost == lost;
    assert Head(line, m) == [] ==> forall x :: Head(line, m) + x == x;
    match m
    case Served =>
      if line != [] {
        ServeKeepsOrder(line, later, lost);
      }
    case Quits(id) => WithdrawKeepsOrder(line, {id}, later, lost);
    case Cleared =>
      WithdrawKeepsOrder(line, Ids(line), later, lost);
      KeepNothing(line, Ids(line));
      assert Ids(line) * Ids(line) == Ids(line);
    case _ =>
  }

  lemma Regroup(x: seq<Job>, y: seq<Job>, z: seq<Job>)
    ensures x + (y + z) == x + y + z
  {
  }

  /** Without the withdrawn jobs, all that waited or joined is what was served and what still waits, in order. */
  lemma {:induction false} FirstComeFirstServed(line: seq<Job>, moves: seq<Move>)
    requires Distinct(line + Joined(moves))
    ensures Keep(line + Joined(moves), Lost(line, moves)) == Taken(line, moves) + AfterAll(line, moves)
    decreases |moves|
  {
    if moves == [] {
      assert line + [] == line;
      KeepAll(line);
    } else {
      var m, rest := moves[0], moves[1..];
      Regroup(line, Added(m), Joined(rest));
      LostAreKnown(After(line, m), rest);
      MoveKeepsOrder(line, m, Joined(rest), Lost(After(line, m), rest));
      FirstComeFirstServed(After(line, m), rest);
      Regroup(Head(line, m), Taken(After(line, m), rest), AfterAll(After(line, m), rest));
    }
  }

  lemma {:induction false} DistinctFront(x: seq<Job>, y: seq<Job>)
    requires Distinct(x + y)
    ensures Distinct(x)
    decreases |x|
  {
    if x == [] {
    } else {
      assert (x + y)[1..] == x[1..] + y;
      DistinctFront(x[1..], y);
      IdsAppend(x[1..], y);
    }
  }

  lemma DistinctAfter(line: seq<Job>, m: Move, rest: seq<Move>)
    requires Distinct(line + Joined([m] + rest))
    ensures Distinct(After(line, m) + Joined(rest))
  {
    assert ([m] + rest)[1..] == rest;
    Regroup(line, Added(m), Joined(rest));
    MoveKeepsOrder(line, m, Joined(rest), {});
  }

  /** Taking the job of that id out of a queue withdraws exactly it. */
  lemma {:induction false} WithoutQuits(jobs: seq<Job>, id: nat)
    requires Distinct(jobs)
    ensures Without(jobs, id) == Keep(jobs, {id})
    decreases |jobs|
  {
    if jobs == [] {
    } else if jobs[0].id == id {
      KeepSame(jobs[1..], {id}, {});
      KeepAll(jobs[1..]);
    } else {
      WithoutQuits(jobs[1..], id);
    }
  }
}
