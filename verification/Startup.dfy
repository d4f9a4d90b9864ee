/**
  * How a client's pool starts and loses workers: the readiness gate, the single
  * retry round, and what the consumer is told. A worker settles once per spawn:
  * it opens, dies, or declines.
  */
module Startup {
  import opened Basics
  import opened Supervisor

  datatype Worker = Opening | Open | Gone

  datatype Gate = Gate(settled: set<nat>, ready: set<nat>, declined: set<nat>, fired: bool, open: bool)

  datatype Note = Announced(index: nat) | ClientFailed

  /**
    * `losses` are the startup deaths not announced yet, in order. `dead` are the
    * slots whose last worker died, and `log` what the consumer was told: both for
    * the statements.
    */
  datatype State = State(
    workers: seq<Worker>, slots: seq<Slot>, gate: Gate, inStartup: bool, losses: seq<nat>,
    probeSettled: bool, failed: bool, dead: set<nat>, log: seq<Note>)

  datatype Event = Opens(index: nat) | Declines(index: nat) | Dies(index: nat) | Serves(index: nat) | ProbeAnswered

  // --------------------------------------------------------------------- the steps

  predicate AllSettled(s: State) { forall i: nat | i < |s.workers| :: i in s.gate.settled }

  function Without(q: seq<nat>, x: nat): (r: seq<nat>)
    ensures forall y :: y in r <==> y in q && y != x
  {
    if q == [] then [] else if q[0] == x then Without(q[1..], x) else [q[0]] + Without(q[1..], x)
  }

  function Announcements(losses: seq<nat>): (r: seq<Note>)
    ensures |r| == |losses| && forall i | 0 <= i < |r| :: r[i] == Announced(losses[i])
  {
    seq(|losses|, i requires 0 <= i < |losses| => Announced(losses[i]))
  }

  /** Every worker is terminated, and the scheduler shut down. */
  function Fail(s: State): State
  {
    s.(failed := true, workers := seq(|s.workers|, _ => Gone), gate := s.gate.(open := true), log := s.log + [ClientFailed])
  }

  function Announce(s: State, i: nat): State { s.(log := s.log + [Announced(i)]) }

  /** Every loss is announced, and none is owed any more. */
  function AnnounceAll(s: State): State { s.(log := s.log + Announcements(s.losses), losses := []) }

  /** The losses reported, one after the other; whether one of them left no live slot. */
  function ReportAll(slots: seq<Slot>, losses: seq<nat>): (r: (seq<Slot>, bool))
    ensures |r.0| == |slots|
  {
    if losses == [] then (slots, false)
    else
      var (before, failing) := ReportAll(slots, losses[..|losses| - 1]);
      var (after, decision) := Reported(before, 0, losses[|losses| - 1], Lost);
      (after, failing || decision == FailClient)
  }

  predicate NoWorker(s: State) { forall i | 0 <= i < |s.workers| :: s.workers[i] == Gone }

  /** What is left of startup's losses is told; then the client fails if nothing is left, or worker 0's answer never comes. */
  function GateOpens(s: State): State
  {
    var (slots, failing) := ReportAll(s.slots, s.losses);
    var orphaned := 0 in s.losses && !s.probeSettled;
    var t := AnnounceAll(s.(gate := s.gate.(open := true), inStartup := false, slots := slots));
    if failing || orphaned || NoWorker(t) then Fail(t) else t
  }

  /** The retry round: the slots that failed are spawned again, and the gate waits for them. */
  function Retry(s: State, again: set<nat>): State
  {
    s.(gate := s.gate.(settled := s.gate.settled - again),
       workers := seq(|s.workers|, i requires 0 <= i < |s.workers| => if i in again then Opening else s.workers[i]),
       dead := s.dead - again)
  }

  function FirstSettle(s: State): State
  {
    if s.gate.ready == {} then Fail(AnnounceAll(s.(inStartup := false)))
    else Retry(s, s.gate.settled - s.gate.ready - s.gate.declined)
  }

  /** A slot settles the gate, which may open it or start the retry round. */
  function Settle(s: State, i: nat): State
  {
    if s.gate.open || i in s.gate.settled then s
    else
      var t := s.(gate := s.gate.(settled := s.gate.settled + {i}));
      if !AllSettled(t) then t
      else if t.gate.fired then GateOpens(t)
      else
        var u := FirstSettle(t.(gate := t.gate.(fired := true)));
        if u.failed || !AllSettled(u) then u else GateOpens(u)
  }

  function SetWorker(s: State, i: nat, w: Worker): State
    requires i < |s.workers|
  {
    s.(workers := s.workers[i := w])
  }

  /** After startup the supervisor decides. */
  function Decide(s: State, max: nat, i: nat): State
    requires i < |s.workers|
  {
    var (slots, decision) := Reported(s.slots, max, i, Died);
    var t := s.(slots := slots);
    match decision
    case NoDecision => t
    case Restart => SetWorker(t, i, Opening).(slots := Reported(slots, max, i, Spawned).0, dead := s.dead - {i})
    case SlotLost => var u := Announce(t, i); if i == 0 && !s.probeSettled then Fail(u) else u
    case FailClient => Fail(Announce(t, i))
  }

  /** Slot 0 never declines, nor a slot that opened once: the environment's answer does not change. */
  predicate Enabled(s: State, e: Event)
  {
    && !s.failed
    && match e
       case Opens(i) => i < |s.workers| && s.workers[i] == Opening
       case Declines(i) => 0 < i < |s.workers| && s.workers[i] == Opening && i < |s.slots| && !s.slots[i].everReady
       case Dies(i) => i < |s.workers| && s.workers[i] != Gone
       case Serves(i) => i < |s.workers| && s.workers[i] == Open
       case ProbeAnswered => true
  }

  function Apply(s: State, max: nat, e: Event): State
    requires Enabled(s, e)
  {
    match e
    case Opens(i) =>
      var t := SetWorker(s, i, Open).(slots := Reported(s.slots, max, i, Ready).0, losses := Without(s.losses, i));
      Settle(if s.gate.open || i in s.gate.settled then t else t.(gate := t.gate.(ready := t.gate.ready + {i})), i)
    case Declines(i) =>
      var t := SetWorker(s, i, Gone).(slots := Reported(s.slots, max, i, Retired).0, losses := Without(s.losses, i));
      Settle(if s.gate.open || i in s.gate.settled then t else t.(gate := t.gate.(declined := t.gate.declined + {i})), i)
    case Dies(i) =>
      var t := SetWorker(s, i, Gone).(dead := s.dead + {i});
      if s.inStartup then Settle(t.(losses := if i in s.losses then s.losses else s.losses + [i]), i)
      else Decide(t, max, i)
    case Serves(i) => s.(slots := Reported(s.slots, max, i, Served).0)
    case ProbeAnswered => s.(probeSettled := true)
  }

  function Init(n: nat, probeSettled: bool): State
  {
    State(seq(n, _ => Opening), seq(n, _ => FreshSlot()), Gate({}, {}, {}, false, false), true, [], probeSettled, false, {}, [])
  }

  // --------------------------------------------------------------------- invariant

  predicate LogOnce(log: seq<Note>)
  {
    forall i, j | 0 <= i < j < |log| :: log[i] != log[j] && log[i] != ClientFailed
  }

  ghost predicate Shape(s: State, max: nat)
  {
    && |s.slots| == |s.workers| > 0 && WithinBudget(s.slots, max)
    && (forall i | i in s.dead :: i < |s.workers|) && (forall i | i in s.gate.declined :: i < |s.workers|)
    && 0 !in s.gate.declined && s.dead !! s.gate.declined && LogOnce(s.log)
  }

  /** While the pool starts, nothing is told, and a slot the gate waits for is opening. */
  ghost predicate Starting(s: State, max: nat, full: bool)
  {
    && Shape(s, max) && !s.failed && s.inStartup && !s.gate.open && s.log == []
    && (!full ==> !AllSettled(s))
    && NoDuplicate(s.losses) && (forall i | i in s.dead :: i in s.losses)
    && (forall i | i in s.losses :: i < |s.workers| && (i in s.dead || i !in s.gate.settled))
    && (forall i: nat | i < |s.workers| ::
          && (s.workers[i] == Gone <==> i in s.dead || i in s.gate.declined)
          && (i !in s.gate.settled ==> s.workers[i] == Opening)
          && (i in s.gate.settled ==> s.workers[i] != Opening) && (s.workers[i] == Open ==> i in s.gate.ready)
          && s.slots[i].alive == (i !in s.gate.declined) && s.slots[i].lost == (i in s.gate.declined)
          && s.slots[i].restarts == 0 && (s.slots[i].everReady <==> i in s.gate.ready))
    && (forall i | i in s.gate.ready :: i < |s.workers|)
    && (forall i | i in s.gate.settled :: i < |s.workers|)
    && s.gate.ready !! s.gate.declined
    && (s.gate.fired ==> s.gate.ready != {})
  }

  /** Afterwards the supervisor knows who is alive, and every slot lost for good has been announced. */
  ghost predicate Serving(s: State, max: nat)
  {
    && Shape(s, max) && !s.failed && !s.inStartup && s.gate.open && s.losses == [] && ClientFailed !in s.log
    && (forall i: nat | i < |s.workers| ::
          && (s.slots[i].alive <==> s.workers[i] != Gone)
          && (s.workers[i] == Gone <==> i in s.dead || i in s.gate.declined)
          && (s.workers[i] == Gone ==> s.slots[i].lost)
          && (s.workers[i] != Gone ==> s.slots[i].everReady))
    && (forall i :: Announced(i) in s.log <==> i in s.dead)
    && (exists i :: 0 <= i < |s.workers| && s.workers[i] != Gone)
  }

  /** The client failed: every slot that was lost had been announced, and failing is the last thing told. */
  ghost predicate Failed(s: State, max: nat)
  {
    && Shape(s, max) && s.failed && NoWorker(s) && s.losses == []
    && s.log != [] && s.log[|s.log| - 1] == ClientFailed
    && forall i :: Announced(i) in s.log <==> i in s.dead
  }

  ghost predicate Inv(s: State, max: nat) { Starting(s, max, false) || Serving(s, max) || Failed(s, max) }

  lemma InitKeeps(n: nat, max: nat, probeSettled: bool)
    requires n > 0
    ensures Inv(Init(n, probeSettled), max)
  {
    assert 0 !in Init(n, probeSettled).gate.settled;
  }

  // ------------------------------------------------------------ the parts of a step

  lemma {:induction false} ReportAllLoses(slots: seq<Slot>, losses: seq<nat>)
    requires NoDuplicate(losses) && forall i | i in losses :: i < |slots| && slots[i].alive
    ensures var (r, failing) := ReportAll(slots, losses);
            && (forall i | 0 <= i < |slots| :: r[i] == if i in losses then slots[i].(alive := false, lost := true) else slots[i])
            && (failing ==> LiveCount(r) == 0)
            && (losses != [] && LiveCount(r) == 0 ==> failing)
    decreases |losses|
  {
    if losses != [] {
      var front, last := losses[..|losses| - 1], losses[|losses| - 1];
      assert forall i | i in front :: i in losses;
      ReportAllLoses(slots, front);
      assert last in losses && last !in front;
      assert forall i :: i in losses <==> i in front || i == last;
      var before := ReportAll(slots, front).0;
      assert before[last].alive;
      NoneLive(before);
      assert LiveCount(before) != 0;
    }
  }

  lemma AnnouncementsOnce(losses: seq<nat>)
    requires NoDuplicate(losses)
    ensures LogOnce(Announcements(losses)) && ClientFailed !in Announcements(losses)
    ensures forall i :: Announced(i) in Announcements(losses) <==> i in losses
  {
    var r := Announcements(losses);
    forall i | i in losses
      ensures Announced(i) in r
    {
      var k :| 0 <= k < |losses| && losses[k] == i;
      assert r[k] == Announced(i);
    }
  }

  lemma AnnounceAllOnce(s: State)
    requires s.log == [] && NoDuplicate(s.losses)
    ensures var t := AnnounceAll(s);
            && LogOnce(t.log) && ClientFailed !in t.log && (forall i :: Announced(i) in t.log <==> i in s.losses)
  {
    AnnouncementsOnce(s.losses);
    assert AnnounceAll(s).log == Announcements(s.losses);
  }

  /** The client fails with everything told: nothing else is told after it. */
  lemma FailKeeps(s: State, max: nat)
    requires Shape(s, max) && s.losses == [] && ClientFailed !in s.log && forall i :: Announced(i) in s.log <==> i in s.dead
    ensures Failed(Fail(s), max)
  {
    var t := Fail(s);
    forall i
      ensures Announced(i) in t.log <==> i in t.dead
    {
      assert Announced(i) in t.log <==> Announced(i) in s.log;
    }
  }

  lemma GateOpensKeeps(s: State, max: nat)
    requires Starting(s, max, true) && AllSettled(s)
    ensures Inv(GateOpens(s), max)
  {
    ReportAllLoses(s.slots, s.losses);
    var (slots, failing) := ReportAll(s.slots, s.losses);
    var u := s.(gate := s.gate.(open := true), inStartup := false, slots := slots);
    AnnounceAllOnce(u);
    var t := AnnounceAll(u);
    if failing || (0 in s.losses && !s.probeSettled) || NoWorker(t) {
      FailKeeps(t, max);
    } else {
      ServingAfter(s, t, slots, max);
    }
  }

  lemma ServingAfter(s: State, t: State, slots: seq<Slot>, max: nat)
    requires Starting(s, max, true) && AllSettled(s) && |slots| == |s.slots|
    requires forall i | 0 <= i < |slots| ::
               slots[i] == if i in s.losses then s.slots[i].(alive := false, lost := true) else s.slots[i]
    requires t == s.(gate := s.gate.(open := true), inStartup := false, slots := slots, losses := [], log := t.log)
    requires LogOnce(t.log) && ClientFailed !in t.log && (forall i :: Announced(i) in t.log <==> i in s.losses) && !NoWorker(t)
    ensures Serving(t, max)
  {
    var i :| 0 <= i < |t.workers| && t.workers[i] != Gone;
  }

  lemma RetryKeeps(s: State, max: nat)
    requires Starting(s, max, true) && AllSettled(s) && s.gate.fired
    ensures var again := s.gate.settled - s.gate.ready - s.gate.declined;
            var t := Retry(s, again); Starting(t, max, true)
  {
  }

  lemma WithoutOnce(q: seq<nat>, x: nat)
    requires NoDuplicate(q)
    ensures NoDuplicate(Without(q, x))
  {
    if q != [] {
      WithoutOnce(q[1..], x);
      assert q[0] !in q[1..];
      if q[0] != x {
        assert q[0] !in Without(q[1..], x);
        assert Without(q, x) == [q[0]] + Without(q[1..], x);
      }
    }
  }

  lemma FirstSettleKeeps(s: State, max: nat)
    requires Starting(s.(gate := s.gate.(fired := s.gate.fired && s.gate.ready != {})), max, true) && AllSettled(s) && s.gate.fired
    ensures var u := FirstSettle(s); if u.failed || !AllSettled(u) then Inv(u, max) else Inv(GateOpens(u), max)
  {
    var u := FirstSettle(s);
    if s.gate.ready == {} {
      AnnounceAllOnce(s.(inStartup := false));
      FailKeeps(AnnounceAll(s.(inStartup := false)), max);
    } else {
      assert s == s.(gate := s.gate.(fired := s.gate.fired && s.gate.ready != {}));
      RetryKeeps(s, max);
      if AllSettled(u) { GateOpensKeeps(u, max); }
    }
  }

  /** A slot that has just settled: what is known of it is what the gate is told. */
  ghost predicate Settling(s: State, max: nat, i: nat)
  {
    && i < |s.workers| && !s.gate.open && i !in s.gate.settled
    && Starting(s.(gate := s.gate.(settled := s.gate.settled + {i})), max, true)
  }

  lemma SettleKeeps(s: State, max: nat, i: nat)
    requires Settling(s, max, i)
    ensures Inv(Settle(s, i), max)
  {
    var t := s.(gate := s.gate.(settled := s.gate.settled + {i}));
    if AllSettled(t) {
      if t.gate.fired {
        GateOpensKeeps(t, max);
      } else {
        var u := t.(gate := t.gate.(fired := true));
        FirstSettleKeeps(u, max);
      }
    }
  }

  // ------------------------------------------------------------------ every step

  lemma OpensKeeps(s: State, max: nat, i: nat)
    requires Inv(s, max) && Enabled(s, Opens(i))
    ensures Inv(Apply(s, max, Opens(i)), max)
  {
    if s.inStartup {
      WithoutOnce(s.losses, i);
      var t := SetWorker(s, i, Open).(slots := Reported(s.slots, max, i, Ready).0, losses := Without(s.losses, i));
      SettleKeeps(t.(gate := t.gate.(ready := t.gate.ready + {i})), max, i);
    } else {
      var t := Apply(s, max, Opens(i));
      assert t.workers[i] != Gone;
    }
  }

  lemma DeclinesKeeps(s: State, max: nat, i: nat)
    requires Inv(s, max) && Enabled(s, Declines(i))
    ensures Inv(Apply(s, max, Declines(i)), max)
  {
    if s.inStartup {
      WithoutOnce(s.losses, i);
      var t := SetWorker(s, i, Gone).(slots := Reported(s.slots, max, i, Retired).0, losses := Without(s.losses, i));
      SettleKeeps(t.(gate := t.gate.(declined := t.gate.declined + {i})), max, i);
    }
  }

  /** A death while the pool starts: a slot that had not settled settles, one that had waits for the gate. */
  lemma DiesEarlyKeeps(s: State, max: nat, i: nat)
    requires Starting(s, max, false) && Enabled(s, Dies(i))
    ensures Inv(Apply(s, max, Dies(i)), max)
  {
    var t := SetWorker(s, i, Gone).(dead := s.dead + {i}, losses := if i in s.losses then s.losses else s.losses + [i]);
    if i !in s.gate.settled {
      SettleKeeps(t, max, i);
    } else {
      assert Starting(t, max, false);
    }
  }

  lemma DiesLateKeeps(s: State, max: nat, i: nat)
    requires Serving(s, max) && Enabled(s, Dies(i))
    ensures Inv(Apply(s, max, Dies(i)), max)
  {
    var decision := Reported(s.slots, max, i, Died).1;
    match decision
    case NoDecision =>
    case Restart => RestartKeeps(s, max, i);
    case SlotLost => LossKeeps(s, max, i);
    case FailClient => LossKeeps(s, max, i);
  }

  lemma RestartKeeps(s: State, max: nat, i: nat)
    requires Serving(s, max) && Enabled(s, Dies(i)) && Reported(s.slots, max, i, Died).1 == Restart
    ensures Serving(Apply(s, max, Dies(i)), max)
  {
    var t := Apply(s, max, Dies(i));
    assert t.workers == s.workers[i := Opening] && t.workers[i] != Gone;
    assert t.dead == s.dead && t.log == s.log;
  }

  /** The slot lost for good, told. */
  function Told(s: State, max: nat, i: nat): State
    requires i < |s.workers|
  {
    Announce(SetWorker(s, i, Gone).(dead := s.dead + {i}, slots := Reported(s.slots, max, i, Died).0), i)
  }

  lemma ToldKeeps(s: State, max: nat, i: nat)
    requires Serving(s, max) && Enabled(s, Dies(i)) && Reported(s.slots, max, i, Died).1 in {SlotLost, FailClient}
    ensures var u := Told(s, max, i);
            && Shape(u, max) && u.losses == [] && ClientFailed !in u.log
            && forall k :: Announced(k) in u.log <==> k in u.dead
  {
    AnnouncedOnce(s, Told(s, max, i), i);
  }

  /** And then the client failed, unless another slot is alive. */
  lemma LossKeeps(s: State, max: nat, i: nat)
    requires Serving(s, max) && Enabled(s, Dies(i)) && Reported(s.slots, max, i, Died).1 in {SlotLost, FailClient}
    ensures Inv(Apply(s, max, Dies(i)), max)
  {
    ToldKeeps(s, max, i);
    var u := Told(s, max, i);
    if Reported(s.slots, max, i, Died).1 == FailClient || (i == 0 && !s.probeSettled) {
      FailKeeps(u, max);
      assert Apply(s, max, Dies(i)) == Fail(u);
    } else {
      OthersServe(s, max, i);
    }
  }

  lemma OthersServe(s: State, max: nat, i: nat)
    requires Serving(s, max) && Enabled(s, Dies(i)) && Reported(s.slots, max, i, Died).1 == SlotLost
    ensures Serving(Told(s, max, i), max)
  {
    ToldKeeps(s, max, i);
    var u := Told(s, max, i);
    NoneLive(u.slots);
    var k :| 0 <= k < |u.slots| && u.slots[k].alive;
    assert u.workers[k] != Gone;
  }

  lemma AnnouncedOnce(s: State, t: State, i: nat)
    requires LogOnce(s.log) && ClientFailed !in s.log && t.log == s.log + [Announced(i)] && Announced(i) !in s.log
    ensures LogOnce(t.log) && ClientFailed !in t.log
    ensures forall k :: Announced(k) in t.log <==> Announced(k) in s.log || k == i
  {
  }

  lemma StepKeeps(s: State, max: nat, e: Event)
    requires Inv(s, max) && Enabled(s, e)
    ensures Inv(Apply(s, max, e), max)
  {
    match e
    case Opens(i) => OpensKeeps(s, max, i);
    case Declines(i) => DeclinesKeeps(s, max, i);
    case Dies(i) => if s.inStartup { DiesEarlyKeeps(s, max, i); } else { DiesLateKeeps(s, max, i); }
    case Serves(i) =>
    case ProbeAnswered =>
  }

  // ---------------------------------------------------------------------- theorems

  predicate CanRun(s: State, max: nat, events: seq<Event>)
    decreases |events|
  {
    events == [] || (Enabled(s, events[0]) && CanRun(Apply(s, max, events[0]), max, events[1..]))
  }

  function Run(s: State, max: nat, events: seq<Event>): State
    requires CanRun(s, max, events)
    decreases |events|
  {
    if events == [] then s else Run(Apply(s, max, events[0]), max, events[1..])
  }

  lemma {:induction false} RunKeeps(s: State, max: nat, events: seq<Event>)
    requires Inv(s, max) && CanRun(s, max, events)
    ensures Inv(Run(s, max, events), max)
    decreases |events|
  {
    if events != [] {
      StepKeeps(s, max, events[0]);
      RunKeeps(Apply(s, max, events[0]), max, events[1..]);
    }
  }

  /**
    * Whatever the consumer is told: no slot lost twice, nothing after the failure
    * of the client, and by then every slot that was lost; and while the client
    * works, some worker is left, and no slot was announced that has one.
    */
  lemma LossesAreTold(n: nat, max: nat, probeSettled: bool, events: seq<Event>)
    requires n > 0 && CanRun(Init(n, probeSettled), max, events)
    ensures var t := Run(Init(n, probeSettled), max, events);
            && LogOnce(t.log)
            && (t.failed ==> t.log != [] && t.log[|t.log| - 1] == ClientFailed && forall i :: i in t.dead ==> Announced(i) in t.log)
            && (!t.failed ==> ClientFailed !in t.log)
            && (!t.failed && !t.inStartup ==> exists i :: 0 <= i < |t.workers| && t.workers[i] != Gone)
            && (forall i | 0 <= i < |t.workers| && Announced(i) in t.log :: t.workers[i] == Gone)
  {
    InitKeeps(n, max, probeSettled);
    RunKeeps(Init(n, probeSettled), max, events);
    var t := Run(Init(n, probeSettled), max, events);
    assert t.failed ==> Failed(t, max);
  }

  /** Told lost, a slot never holds a worker again. */
  lemma {:induction false} AnnouncedStaysGone(s: State, max: nat, events: seq<Event>, i: nat)
    requires Inv(s, max) && CanRun(s, max, events) && i < |s.workers| && Announced(i) in s.log
    ensures var t := Run(s, max, events); i < |t.workers| && t.workers[i] == Gone && Announced(i) in t.log
    decreases |events|
  {
    if events != [] {
      var t := Apply(s, max, events[0]);
      StepKeeps(s, max, events[0]);
      LogGrows(s, max, events[0]);
      AnnouncedStaysGone(t, max, events[1..], i);
    }
  }

  predicate Grows(s: State, t: State)
  {
    |t.workers| == |s.workers| && |t.slots| == |s.slots| && |s.log| <= |t.log| && t.log[..|s.log|] == s.log
  }

  lemma GateOpensGrows(s: State)
    ensures Grows(s, GateOpens(s)) && GateOpens(s).gate.fired == s.gate.fired
  {
  }

  lemma FirstSettleGrows(s: State)
    ensures Grows(s, FirstSettle(s)) && FirstSettle(s).gate.fired == s.gate.fired
    ensures forall k | 0 <= k < |s.workers| && s.workers[k] == Gone && FirstSettle(s).workers[k] != Gone ::
              k !in s.gate.ready && k !in s.gate.declined
  {
  }

  lemma GateOpensBringsNobody(s: State)
    ensures forall k | 0 <= k < |s.workers| && s.workers[k] == Gone :: GateOpens(s).workers[k] == Gone
  {
    GateOpensGrows(s);
  }

  /** A slot that settles: the log grows, and only the retry round brings a worker back. */
  lemma SettleGrows(s: State, i: nat)
    ensures var t := Settle(s, i); Grows(s, t) && (s.gate.fired ==> t.gate.fired)
    ensures var t := Settle(s, i);
            forall k | 0 <= k < |s.workers| && s.workers[k] == Gone && t.workers[k] != Gone ::
              !s.gate.fired && t.gate.fired && k !in s.gate.ready && k !in s.gate.declined
  {
    var t := s.(gate := s.gate.(settled := s.gate.settled + {i}));
    GateOpensGrows(t);
    GateOpensBringsNobody(t);
    var fired := t.(gate := t.gate.(fired := true));
    FirstSettleGrows(fired);
    GateOpensGrows(FirstSettle(fired));
    GateOpensBringsNobody(FirstSettle(fired));
  }

  lemma LogGrows(s: State, max: nat, e: Event)
    requires Inv(s, max) && Enabled(s, e)
    ensures Grows(s, Apply(s, max, e))
    ensures forall i | Announced(i) in s.log :: Announced(i) in Apply(s, max, e).log
  {
    match e
    case Opens(i) =>
      var t := SetWorker(s, i, Open).(slots := Reported(s.slots, max, i, Ready).0, losses := Without(s.losses, i));
      SettleGrows(if s.gate.open || i in s.gate.settled then t else t.(gate := t.gate.(ready := t.gate.ready + {i})), i);
    case Declines(i) =>
      var t := SetWorker(s, i, Gone).(slots := Reported(s.slots, max, i, Retired).0, losses := Without(s.losses, i));
      SettleGrows(if s.gate.open || i in s.gate.settled then t else t.(gate := t.gate.(declined := t.gate.declined + {i})), i);
    case Dies(i) =>
      var t := SetWorker(s, i, Gone).(dead := s.dead + {i});
      SettleGrows(t.(losses := if i in s.losses then s.losses else s.losses + [i]), i);
    case Serves(i) =>
    case ProbeAnswered =>
  }

  /** While the pool starts, the gate waits for a slot that is opening: no answer is waited for that cannot come. */
  lemma StartupWaitsForSomeone(s: State, max: nat)
    requires Inv(s, max) && s.inStartup && !s.failed
    ensures exists i: nat :: i < |s.workers| && i !in s.gate.settled && s.workers[i] == Opening
  {
    var i: nat :| i < |s.workers| && i !in s.gate.settled;
  }

  /** One retry round: it runs at most once, and respawns only slots whose worker died. */
  lemma OneRetryRound(s: State, max: nat, e: Event, i: nat)
    requires Inv(s, max) && Enabled(s, e) && s.inStartup && i < |s.workers| && s.workers[i] == Gone
    ensures var t := Apply(s, max, e);
            |t.workers| == |s.workers| && (t.workers[i] != Gone ==> !s.gate.fired && t.gate.fired && i in s.dead)
    ensures s.gate.fired ==> Apply(s, max, e).gate.fired
  {
    match e
    case Opens(k) =>
      var t := SetWorker(s, k, Open).(slots := Reported(s.slots, max, k, Ready).0, losses := Without(s.losses, k));
      SettleGrows(t.(gate := t.gate.(ready := t.gate.ready + {k})), k);
    case Declines(k) =>
      var t := SetWorker(s, k, Gone).(slots := Reported(s.slots, max, k, Retired).0, losses := Without(s.losses, k));
      SettleGrows(t.(gate := t.gate.(declined := t.gate.declined + {k})), k);
    case Dies(k) =>
      var t := SetWorker(s, k, Gone).(dead := s.dead + {k});
      SettleGrows(t.(losses := if k in s.losses then s.losses else s.losses + [k]), k);
    case Serves(_) =>
    case ProbeAnswered =>
  }

  /** Restarts since a slot last served a query, however long the run: never more than the budget. */
  function Since(s: State, max: nat, events: seq<Event>, i: nat, count: nat): nat
    requires CanRun(s, max, events)
    decreases |events|
  {
    if events == [] then count
    else
      var t := Apply(s, max, events[0]);
      var restarted := events[0] == Dies(i) && !s.inStartup && i < |t.workers| && t.workers[i] == Opening;
      Since(t, max, events[1..], i, if events[0] == Serves(i) then 0 else if restarted then count + 1 else count)
  }

  lemma {:induction false} RestartsStayInBudget(s: State, max: nat, events: seq<Event>, i: nat, count: nat)
    requires Inv(s, max) && CanRun(s, max, events) && i < |s.slots|
    requires s.failed || (s.slots[i].restarts >= count && count <= max)
    requires count <= max
    ensures Since(s, max, events, i, count) <= max
    decreases |events|
  {
    if events != [] {
      StepKeeps(s, max, events[0]);
      RestartIsCharged(s, max, events[0], i);
      var t := Apply(s, max, events[0]);
      var restarted := events[0] == Dies(i) && !s.inStartup && i < |t.workers| && t.workers[i] == Opening;
      RestartsStayInBudget(t, max, events[1..], i, if events[0] == Serves(i) then 0 else if restarted then count + 1 else count);
    }
  }

  lemma RestartIsCharged(s: State, max: nat, e: Event, i: nat)
    requires Inv(s, max) && Enabled(s, e) && i < |s.slots|
    ensures var t := Apply(s, max, e);
            && |t.slots| == |s.slots| == |s.workers| == |t.workers|
            && (e != Serves(i) && !t.failed ==> t.slots[i].restarts >= s.slots[i].restarts)
            && (e == Dies(i) && !s.inStartup && t.workers[i] == Opening ==>
                  t.slots[i].restarts == s.slots[i].restarts + 1 <= max && !t.failed)
  {
    LogGrows(s, max, e);
    if !s.inStartup { LateStepCharges(s, max, e, i); }
  }

  lemma LateStepCharges(s: State, max: nat, e: Event, i: nat)
    requires Serving(s, max) && Enabled(s, e) && i < |s.slots|
    ensures var t := Apply(s, max, e);
            && |t.slots| == |s.slots| == |s.workers| == |t.workers|
            && (e != Serves(i) ==> t.slots[i].restarts >= s.slots[i].restarts)
            && (e == Dies(i) && t.workers[i] == Opening ==>
                  t.slots[i].restarts == s.slots[i].restarts + 1 <= max && !t.failed)
  {
  }
}
