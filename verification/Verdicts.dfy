/** Asking a worker what kind of statement a text is, until one gives a verdict. */
module Verdicts {
  import opened Basics

  /** How asking once ends. `Passing` is a failure a neighbour or a lock may cause; the rest is the statement's or the call's own. */
  datatype Reply = Got(kind: nat) | FailedPrepare | Passing | Other

  /**
    * What one lease of a worker would bring: whether a transaction lent it, its
    * answer, whether a barrier behind a failed prepare succeeds and what is
    * answered then, and whether the worker is dead by the end.
    */
  datatype Attempt = Attempt(lent: bool, first: Reply, barrier: Reply, second: Reply, dead: bool)

  /** Only a free worker is leased once one is asked for. */
  predicate Borrowed(a: Attempt, free: bool) { a.lent && !free }

  /** A failed prepare is asked again behind a barrier, on a worker of the pool's own. */
  function Answered(a: Attempt, free: bool): Reply
  {
    if a.first != FailedPrepare || Borrowed(a, free) then a.first
    else if !a.barrier.Got? then a.barrier
    else a.second
  }

  /** What is left of one's patience: deaths and passing failures allowed, and whether a lent worker may still be asked. */
  function Patience(deaths: nat, passes: nat, free: bool): int
  {
    (if deaths == 0 then 1 else 0) + (if passes == 0 then 1 else 0) + (if free then 0 else 1)
  }

  /** Asking once more, then: whether to go on with more deaths, more passes or only free workers, or to stop with what was answered. */
  datatype Next = Again(deaths: nat, passes: nat, free: bool) | Stop

  function After(a: Attempt, deaths: nat, passes: nat, free: bool): Next
  {
    var r := Answered(a, free);
    if r.Got? then Stop
    else if a.dead then if deaths > 0 then Stop else Again(deaths + 1, passes, free)
    else if r == Passing then if passes > 0 then Stop else Again(deaths, passes + 1, free)
    else if Borrowed(a, free) && r == FailedPrepare then Again(deaths, passes, true)
    else Stop
  }

  /** How many workers are asked and what the last one answers, when each lease in turn brings one of `attempts`; None when they run out. */
  function Asked(attempts: seq<Attempt>, deaths: nat, passes: nat, free: bool): Option<(nat, Reply)>
  {
    if attempts == [] then None
    else
      match After(attempts[0], deaths, passes, free)
      case Stop => Some((1, Answered(attempts[0], free)))
      case Again(d, p, f) =>
        var rest := Asked(attempts[1..], d, p, f);
        if rest == None then None else Some((1 + rest.value.0, rest.value.1))
  }

  /** Patience runs out: four leases are always enough. */
  lemma {:induction false} FourAreEnough(attempts: seq<Attempt>, deaths: nat, passes: nat, free: bool)
    requires deaths <= 1 && passes <= 1 && |attempts| > Patience(deaths, passes, free)
    ensures Asked(attempts, deaths, passes, free).Some?
    ensures 0 < Asked(attempts, deaths, passes, free).value.0 <= 1 + Patience(deaths, passes, free)
  {
    match After(attempts[0], deaths, passes, free)
    case Stop =>
    case Again(d, p, f) => FourAreEnough(attempts[1..], d, p, f);
  }

  /**
    * At most four workers are asked, whatever each of them does. Every one is
    * given back once; the answer is the last one's; and the statement is only
    * blamed for a failed prepare that failed again behind a barrier, or in it, on a
    * worker of the pool's own that is alive.
    */
  method AskVerdict(attempts: seq<Attempt>) returns (r: Reply, asked: nat, released: nat)
    requires |attempts| >= 4
    ensures Asked(attempts, 0, 0, false) == Some((asked, r))
    ensures 0 < asked <= 4 && released == asked
    ensures r.Got? ==> r == attempts[asked - 1].first || r == attempts[asked - 1].second
    ensures forall i | 0 <= i < asked - 1 :: !attempts[i].first.Got?
    ensures r == FailedPrepare && !attempts[asked - 1].dead ==>
              var a := attempts[asked - 1]; a.first == FailedPrepare && (if a.barrier.Got? then a.second else a.barrier) == FailedPrepare
    ensures r == Passing && !attempts[asked - 1].dead ==>
              exists i :: 0 <= i < asked - 1 && PassedOnce(attempts[i])
  {
    var deaths, passes, free := 0, 0, false;
    asked, released := 0, 0;
    while true
      invariant 0 <= deaths <= 1 && 0 <= passes <= 1
      invariant asked + Patience(deaths, passes, free) <= 3 && released == asked
      invariant Continues(attempts, asked, deaths, passes, free)
      invariant forall i | 0 <= i < asked :: !attempts[i].first.Got?
      invariant passes == 1 ==> exists i :: 0 <= i < asked && PassedOnce(attempts[i])
      decreases 4 - asked
    {
      var a := attempts[asked];
      ContinuesOne(attempts, asked, deaths, passes, free);
      asked := asked + 1;
      var borrowed := Borrowed(a, free);
      r := Answered(a, free);
      released := released + 1;
      if r.Got? { return; }
      if a.dead {
        deaths := deaths + 1;
        if deaths > 1 { return; }
      } else if r == Passing {
        passes := passes + 1;
        if passes > 1 { return; }
        assert PassedOnce(attempts[asked - 1]);
      } else if borrowed && r == FailedPrepare {
        free := true;
      } else {
        return;
      }
    }
  }

  /** Asking from the start is asking `done` workers, and then going on from here. */
  predicate Continues(attempts: seq<Attempt>, done: nat, deaths: nat, passes: nat, free: bool)
    requires done <= |attempts|
  {
    var all, rest := Asked(attempts, 0, 0, false), Asked(attempts[done..], deaths, passes, free);
    if rest == None then all == None else all == Some((done + rest.value.0, rest.value.1))
  }

  lemma ContinuesOne(attempts: seq<Attempt>, done: nat, deaths: nat, passes: nat, free: bool)
    requires done < |attempts| && Continues(attempts, done, deaths, passes, free)
    ensures match After(attempts[done], deaths, passes, free)
            case Stop => Asked(attempts, 0, 0, false) == Some((done + 1, Answered(attempts[done], free)))
            case Again(d, p, f) => Continues(attempts, done + 1, d, p, f)
  {
    assert attempts[done..][0] == attempts[done] && attempts[done..][1..] == attempts[done + 1..];
  }

  /** A worker that is alive met a passing failure, at its first answer, its barrier or its second. */
  predicate PassedOnce(a: Attempt) { !a.dead && (a.first == Passing || a.barrier == Passing || a.second == Passing) }

  /** The bound is met: a death, a passing failure, a lent worker's failed prepare, and a fourth that answers. */
  lemma FourMayBeAsked()
    ensures exists attempts: seq<Attempt> :: Asked(attempts, 0, 0, false) == Some((4, Got(0)))
  {
    var none := Attempt(false, Passing, Got(0), Got(0), false);
    var fourth := [none.(first := Got(0))];
    var third := [none.(lent := true, first := FailedPrepare)] + fourth;
    var second := [none] + third;
    var first := [none.(dead := true)] + second;
    assert Asked(fourth, 1, 1, true) == Some((1, Got(0)));
    assert third[1..] == fourth && Asked(third, 1, 1, false) == Some((2, Got(0)));
    assert second[1..] == third && Asked(second, 1, 0, false) == Some((3, Got(0)));
    assert first[1..] == second && Asked(first, 0, 0, false) == Some((4, Got(0)));
  }
}
