/** What a pool's start, a death and the end of the client look like from outside, case by case. */
module StartupOutcomes {
  import opened Basics
  import opened Supervisor
  import opened Startup

  /** Some other slot still has a worker. */
  predicate OthersLeft(s: State, i: nat) { exists k :: 0 <= k < |s.workers| && k != i && s.workers[k] != Gone }

  /**
    * A worker dies once the pool serves. With budget left its slot is restarted and
    * nobody is told. Without, its loss is told; and the client fails then only if it
    * was the last worker, or worker 0 before its answer.
    */
  lemma DeathOutcome(s: State, max: nat, i: nat)
    requires Serving(s, max) && Enabled(s, Dies(i))
    ensures s.slots[i].everReady
    ensures var t := Apply(s, max, Dies(i));
            if s.slots[i].restarts < max then
              !t.failed && t.workers == s.workers[i := Opening] && t.log == s.log && t.slots[i].restarts == s.slots[i].restarts + 1
            else if OthersLeft(s, i) && (i != 0 || s.probeSettled) then
              !t.failed && t.workers == s.workers[i := Gone] && t.log == s.log + [Announced(i)]
            else
              t.failed && NoWorker(t) && t.log == s.log + [Announced(i), ClientFailed]
  {
    ReportOutcome(s.slots, max, i, Died);
    LastOne(s, max, i);
    assert s.log + [Announced(i)] + [ClientFailed] == s.log + [Announced(i), ClientFailed];
  }

  lemma LastOne(s: State, max: nat, i: nat)
    requires Serving(s, max) && i < |s.workers| && s.workers[i] != Gone
    ensures OthersLeft(s, i) <==> exists k :: 0 <= k < |s.slots| && k != i && s.slots[k].alive
  {
    forall k | 0 <= k < |s.workers|
      ensures s.workers[k] != Gone <==> s.slots[k].alive
    {
    }
    if OthersLeft(s, i) {
      var k :| 0 <= k < |s.workers| && k != i && s.workers[k] != Gone;
      assert s.slots[k].alive;
    }
    if k :| 0 <= k < |s.slots| && k != i && s.slots[k].alive {
      assert s.workers[k] != Gone;
    }
  }

  // ------------------------------------------------------------------------ the start

  /** What a slot's settling leaves it as. */
  function SettledAs(e: Event): Worker
    requires e.Opens? || e.Declines? || e.Dies?
  {
    if e.Opens? then Open else Gone
  }

  function ReadyAfter(s: State, e: Event): set<nat> { if e.Opens? then s.gate.ready + {e.index} else s.gate.ready }

  function DeclinedAfter(s: State, e: Event): set<nat> { if e.Declines? then s.gate.declined + {e.index} else s.gate.declined }

  /** The slots that have had no worker open yet, and were not declined. */
  predicate Unready(s: State, e: Event, k: nat)
  {
    k < |s.workers| && k !in ReadyAfter(s, e) && k !in DeclinedAfter(s, e)
  }

  predicate OthersSettled(s: State, i: nat) { forall k: nat | k < |s.workers| && k != i :: k in s.gate.settled }

  /** A slot of a starting pool settles. */
  ghost predicate SettlesNow(s: State, max: nat, e: Event)
  {
    Starting(s, max, false) && Enabled(s, e) && (e.Opens? || e.Declines? || e.Dies?) && e.index !in s.gate.settled
  }

  /** Not the last: the pool goes on waiting, with this slot as it settled. */
  lemma EarlySettling(s: State, max: nat, e: Event)
    requires SettlesNow(s, max, e) && !OthersSettled(s, e.index)
    ensures var t := Apply(s, max, e);
            && !t.failed && t.inStartup && !t.gate.open && t.log == s.log && t.gate.fired == s.gate.fired
            && t.gate.settled == s.gate.settled + {e.index} && t.workers == s.workers[e.index := SettledAs(e)]
  {
  }

  /** The last of the first round, and no worker opened: the client fails, every death told. */
  lemma NobodyReady(s: State, max: nat, e: Event)
    requires SettlesNow(s, max, e) && OthersSettled(s, e.index) && !s.gate.fired && ReadyAfter(s, e) == {}
    ensures var t := Apply(s, max, e); t.failed && NoWorker(t) && t.log != [] && t.log[|t.log| - 1] == ClientFailed
  {
  }

  /** The last of the first round, and some did not open: those, and only those, are spawned again, and waited for. */
  lemma RetryRound(s: State, max: nat, e: Event)
    requires SettlesNow(s, max, e) && OthersSettled(s, e.index) && !s.gate.fired && ReadyAfter(s, e) != {}
    requires exists k: nat :: Unready(s, e, k)
    ensures var t := Apply(s, max, e);
            && !t.failed && t.inStartup && !t.gate.open && t.gate.fired && t.log == s.log && |t.workers| == |s.workers|
            && forall k: nat | k < |s.workers| ::
                 && (k in t.gate.settled <==> !Unready(s, e, k))
                 && t.workers[k] == if Unready(s, e, k) then Opening else s.workers[e.index := SettledAs(e)][k]
  {
    var u := Reached(s, max, e);
    var again := Again(u);
    RetriesAt(s, max, e);
    assert forall k: nat | k < |s.workers| :: k in again <==> Unready(s, e, k);
    assert Retry(u, again).gate.settled == u.gate.settled - again;
  }

  function Again(s: State): set<nat> { s.gate.settled - s.gate.ready - s.gate.declined }

  lemma RetriesAt(s: State, max: nat, e: Event)
    requires SettlesNow(s, max, e) && OthersSettled(s, e.index) && !s.gate.fired && ReadyAfter(s, e) != {}
    requires exists k: nat :: Unready(s, e, k)
    ensures var u := Reached(s, max, e); Apply(s, max, e) == Retry(u, Again(u))
    ensures var u := Reached(s, max, e); !u.failed && u.inStartup && !u.gate.open && u.log == s.log
  {
    var u := Reached(s, max, e);
    var k: nat :| Unready(s, e, k);
    assert k in u.gate.settled && k in Again(u);
    assert !AllSettled(Retry(u, Again(u))) by { assert k !in Retry(u, Again(u)).gate.settled; }
    assert AllSettled(u);
  }

  /**
    * The last of the second round, or of a first that left nobody out: the gate opens,
    * for good; the client fails then only if no worker is left, or worker 0 is lost
    * before its answer.
    */
  lemma GateOutcome(s: State, max: nat, e: Event)
    requires SettlesNow(s, max, e) && OthersSettled(s, e.index) && ReadyAfter(s, e) != {}
    requires s.gate.fired || forall k: nat :: !Unready(s, e, k)
    ensures var t, left := Apply(s, max, e), s.workers[e.index := SettledAs(e)];
            && !t.inStartup && t.gate.open && t.losses == []
            && (t.failed <==> (forall k | 0 <= k < |left| :: left[k] == Gone) || (left[0] == Gone && !s.probeSettled))
            && (!t.failed ==> t.workers == left)
  {
    var u := Reached(s, max, e);
    match e {
      case Opens(i) => OpensReaches(s, max, i);
      case Declines(i) => DeclinesReaches(s, max, i);
      case Dies(i) => DiesReaches(s, max, i);
    }
    OpeningOutcome(u, max);
    var left := s.workers[e.index := SettledAs(e)];
    assert u.workers == left && u.probeSettled == s.probeSettled;
    assert NoWorker(u) <==> forall k | 0 <= k < |left| :: left[k] == Gone;
  }

  /** Every slot has settled, as the gate is told, and the retry round is over or was not needed. */
  function Reached(s: State, max: nat, e: Event): State
    requires (e.Opens? || e.Declines? || e.Dies?) && e.index < |s.workers|
  {
    var i := e.index;
    var gate := Gate(s.gate.settled + {i}, ReadyAfter(s, e), DeclinedAfter(s, e), true, s.gate.open);
    var t := s.(workers := s.workers[i := SettledAs(e)], gate := gate);
    match e
    case Opens(_) => t.(slots := Reported(s.slots, max, i, Ready).0, losses := Without(s.losses, i))
    case Declines(_) => t.(slots := Reported(s.slots, max, i, Retired).0, losses := Without(s.losses, i))
    case Dies(_) => t.(dead := s.dead + {i}, losses := if i in s.losses then s.losses else s.losses + [i])
    case _ => t
  }

  lemma OpensReaches(s: State, max: nat, i: nat)
    requires SettlesNow(s, max, Opens(i)) && OthersSettled(s, i)
    requires s.gate.fired || forall k: nat :: !Unready(s, Opens(i), k)
    ensures var u := Reached(s, max, Opens(i)); Starting(u, max, true) && AllSettled(u) && Apply(s, max, Opens(i)) == GateOpens(u)
  {
    WithoutOnce(s.losses, i);
    SettlesAt(s, max, Opens(i));
  }

  lemma DeclinesReaches(s: State, max: nat, i: nat)
    requires SettlesNow(s, max, Declines(i)) && OthersSettled(s, i) && ReadyAfter(s, Declines(i)) != {}
    requires s.gate.fired || forall k: nat :: !Unready(s, Declines(i), k)
    ensures var u := Reached(s, max, Declines(i));
            Starting(u, max, true) && AllSettled(u) && Apply(s, max, Declines(i)) == GateOpens(u)
  {
    WithoutOnce(s.losses, i);
    SettlesAt(s, max, Declines(i));
  }

  lemma DiesReaches(s: State, max: nat, i: nat)
    requires SettlesNow(s, max, Dies(i)) && OthersSettled(s, i) && ReadyAfter(s, Dies(i)) != {}
    requires s.gate.fired || forall k: nat :: !Unready(s, Dies(i), k)
    ensures var u := Reached(s, max, Dies(i)); Starting(u, max, true) && AllSettled(u) && Apply(s, max, Dies(i)) == GateOpens(u)
  {
    SettlesAt(s, max, Dies(i));
  }

  /** With nobody to spawn again the gate opens on the very state that was reached. */
  lemma SettlesAt(s: State, max: nat, e: Event)
    requires SettlesNow(s, max, e) && OthersSettled(s, e.index) && ReadyAfter(s, e) != {}
    requires s.gate.fired || forall k: nat :: !Unready(s, e, k)
    ensures Apply(s, max, e) == GateOpens(Reached(s, max, e)) && AllSettled(Reached(s, max, e))
  {
    var u := Reached(s, max, e);
    if !s.gate.fired {
      NobodyAgain(s, max, e);
      RetryNobody(u);
    }
  }

  lemma NobodyAgain(s: State, max: nat, e: Event)
    requires SettlesNow(s, max, e) && forall k: nat :: !Unready(s, e, k)
    ensures Again(Reached(s, max, e)) == {}
  {
    var again := Again(Reached(s, max, e));
    forall k: nat
      ensures k !in again
    {
      assert !Unready(s, e, k);
    }
    assert again == {};
  }

  lemma RetryNobody(s: State)
    ensures Retry(s, {}) == s
  {
    assert Retry(s, {}).workers == s.workers;
    assert s.gate.settled - {} == s.gate.settled && s.dead - {} == s.dead;
  }

  /** What the gate does as it opens. */
  lemma OpeningOutcome(s: State, max: nat)
    requires Starting(s, max, true) && AllSettled(s)
    ensures var t := GateOpens(s);
            && !t.inStartup && t.gate.open && t.losses == []
            && (t.failed <==> NoWorker(s) || (s.workers[0] == Gone && !s.probeSettled))
            && (!t.failed ==> t.workers == s.workers)
  {
    ReportAllLoses(s.slots, s.losses);
    var r := ReportAll(s.slots, s.losses).0;
    NoneLive(r);
    if NoWorker(s) && s.losses != [] {
      assert LiveCount(r) == 0;
    }
    if ReportAll(s.slots, s.losses).1 {
      forall k | 0 <= k < |s.workers|
        ensures s.workers[k] == Gone
      {
        assert !r[k].alive;
      }
    }
  }
}
