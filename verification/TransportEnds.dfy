/**
  * How a query's generator leaves its loop, against what happened during the query,
  * and that its drain comes to an end.
  */
module TransportEnds {
  import opened Basics
  import opened TransportModel
  import opened TransportDelivery

  // ----------------------------------------------------------- what happened to a query

  /** What happened since the last query was posted. */
  datatype Told = Told(posted: bool, interrupted: bool, left: bool, garbled: bool, errored: bool)

  function Tell(h: Told, e: Event): Told
  {
    match e
    case Post(_, _) => Told(true, false, false, false, false)
    case Interrupt => h.(interrupted := true)
    case Leave => h.(left := true)
    case Garble => h.(garbled := true)
    case WorkerEnds(ok) => if ok then h else h.(errored := true)
    case _ => h
  }

  function TellAll(h: Told, events: seq<Event>): Told
    decreases |events|
  {
    if events == [] then h else TellAll(Tell(h, events[0]), events[1..])
  }

  const Nothing := Told(false, false, false, false, false)

  /** The generator has left its loop: why is true. */
  predicate Why(outcome: Outcome, h: Told)
  {
    match outcome
    case Completed => true
    case QueryFailed => h.errored
    case Broken => h.garbled
    case Cut => h.interrupted || h.left
  }

  predicate Honest(s: State, h: Told)
  {
    && (!h.posted ==> s.client.phase == Idle && !s.client.inflight && s.toClient == [] && s.toWorker == [] && !s.worker.running)
    && (h.posted && !Open(s.client) ==> Why(s.client.outcome, h))
    && (h.posted && s.client.stopped ==> h.interrupted)
    && (h.posted && s.client.failed ==> h.garbled)
    && (s.client.rejected ==> h.errored)
    && (forall i | 0 <= i < |s.toClient| && s.toClient[i].Error? :: h.errored)
  }

  lemma StepKeepsHonest(s: State, h: Told, e: Event)
    requires Inv(s) && Honest(s, h) && Enabled(s, e)
    ensures Honest(Apply(s, e), Tell(h, e))
  {
    match e
    case Post(rows, window) => PostIsHonest(s, rows, window);
    case WorkerSends => WorkerKeepsHonest(s, h, e);
    case WorkerEnds(ok) => WorkerKeepsHonest(s, h, e);
    case ClientReads => ReadKeepsHonest(s, h);
    case Turn => TurnKeepsHonest(s, h);
    case _ => OtherKeepsHonest(s, h, e);
  }

  lemma PostIsHonest(s: State, rows: seq<nat>, window: nat)
    requires ChannelsOk(s) && Enabled(s, Post(rows, window))
    ensures Honest(Apply(s, Post(rows, window)), Told(true, false, false, false, false))
  {
    assert s.toClient == [];
  }

  lemma WorkerKeepsHonest(s: State, h: Told, e: Event)
    requires Honest(s, h) && Enabled(s, e) && (e.WorkerSends? || e.WorkerEnds?)
    ensures Honest(Apply(s, e), Tell(h, e))
  {
  }

  lemma ReadKeepsHonest(s: State, h: Told)
    requires Honest(s, h) && Enabled(s, ClientReads)
    ensures Honest(Apply(s, ClientReads), h)
  {
  }

  lemma OtherKeepsHonest(s: State, h: Told, e: Event)
    requires Honest(s, h) && Enabled(s, e)
    requires e.WorkerReads? || e.Garble? || e.Pull? || e.Leave? || e.Interrupt? || e.Drained?
    ensures Honest(Apply(s, e), Tell(h, e))
  {
  }

  lemma TurnKeepsHonest(s: State, h: Told)
    requires Honest(s, h) && Enabled(s, Turn)
    ensures Honest(Apply(s, Turn), h)
  {
  }

  lemma {:induction false} RunKeepsHonest(s: State, h: Told, events: seq<Event>)
    requires Inv(s) && Honest(s, h) && CanRun(s, events) && HeldRun(s, events)
    ensures Inv(Run(s, events)) && Honest(Run(s, events), TellAll(h, events))
    decreases |events|
  {
    if events != [] {
      StepKeeps(s, events[0]);
      StepKeepsHonest(s, h, events[0]);
      RunKeepsHonest(Apply(s, events[0]), Tell(h, events[0]), events[1..]);
    }
  }

  /**
    * A query that has left its loop was given everything, or SQLite failed it, or its
    * transport broke, or it was interrupted or left by its consumer; and its outcome
    * is the one it says. With none of the last three it completed.
    */
  lemma OutcomeIsHonest(s: State, events: seq<Event>)
    requires Init(s) && CanRun(s, events) && HeldRun(s, events)
    requires var h := TellAll(Nothing, events); h.posted && !Open(Run(s, events).client)
    ensures var t, h := Run(s, events), TellAll(Nothing, events);
            match t.client.outcome
            case Completed => t.counted && t.got == t.rows
            case QueryFailed => h.errored
            case Broken => h.garbled
            case Cut => h.interrupted || h.left
    ensures var t, h := Run(s, events), TellAll(Nothing, events);
            !h.errored && !h.garbled && !h.interrupted && !h.left ==> t.client.outcome == Completed && t.got == t.rows
    ensures var t, h := Run(s, events), TellAll(Nothing, events);
            h.garbled && !h.errored && !h.interrupted && !h.left ==> t.client.outcome == Completed || t.client.outcome == Broken
  {
    InitKeeps(s);
    RunKeepsHonest(s, Nothing, events);
    assert DataOk(Run(s, events));
  }

  /** Once interrupted, or its transport broken, a query gives its consumer nothing more. */
  lemma {:induction false} NothingAfterAStop(s: State, events: seq<Event>)
    requires CanRun(s, events) && (s.client.stopped || s.client.failed)
    requires forall i | 0 <= i < |events| :: !events[i].Post?
    ensures Run(s, events).got == s.got && Run(s, events).counted == s.counted
    decreases |events|
  {
    if events != [] {
      assert !events[0].Post?;
      NothingMore(s, events[0]);
      NothingAfterAStop(Apply(s, events[0]), events[1..]);
    }
  }

  lemma NothingMore(s: State, e: Event)
    requires Enabled(s, e) && (s.client.stopped || s.client.failed) && !e.Post?
    ensures var t := Apply(s, e);
            t.got == s.got && t.counted == s.counted && (t.client.stopped || t.client.failed)
  {
  }

  /** SQLite's error waits for the chunks that came before it; a turn with a chunk queued and nothing stopped gives the first. */
  lemma ErrorComesLast(s: State)
    requires Enabled(s, Turn) && s.client.inbox != [] && s.client.inbox[0].Rows? && !s.client.stopped && !s.client.failed
    ensures Apply(s, Turn).got == s.got + [s.client.inbox[0].rows] && Open(Apply(s, Turn).client)
  {
  }

  // ---------------------------------------------------------------------- the drain

  /** The moves that need neither the consumer nor a failure. */
  predicate ByItself(e: Event) { e == WorkerReads || e == WorkerSends || e == WorkerEnds(true) || e == ClientReads }

  /** How many such moves there can be. */
  function Left(s: State): nat
  {
    Queued(s.toWorker) + (if s.worker.running then 2 * |s.worker.todo| + 2 else 0) + |s.toClient|
  }

  function Queued(q: seq<ToWorker>): nat
  {
    if q == [] then 0 else (if q[0].Query? then 2 * |q[0].rows| + 3 else 1) + Queued(q[1..])
  }

  lemma EveryMoveCounts(s: State, e: Event)
    requires Enabled(s, e) && ByItself(e)
    ensures Left(Apply(s, e)) < Left(s)
  {
  }

  predicate Has(q: seq<ToWorker>, m: ToWorker) { exists i :: 0 <= i < |q| && q[i] == m }

  /** While a query that has left its loop is in flight, its stop is on its way or read. */
  predicate StopUnderWay(s: State)
  {
    s.client.phase == Draining && s.client.inflight ==>
      (!Waiting(s) && s.worker.gate.stopped) || Has(s.toWorker, Stop(s.client.call))
  }

  lemma StepKeepsStop(s: State, e: Event)
    requires Inv(s) && StopUnderWay(s) && Enabled(s, e)
    ensures StopUnderWay(Apply(s, e))
  {
    match e
    case WorkerReads => ReadKeepsStop(s);
    case Turn => LeavingKeepsStop(s, Turn, LoopTurn(s.client));
    case Leave => LeavingKeepsStop(s, Leave, Unwind(s.client, Cut));
    case Pull => PullKeepsStop(s);
    case _ => OtherKeepsStop(s, e);
  }

  lemma PullKeepsStop(s: State)
    requires Enabled(s, Pull)
    ensures StopUnderWay(Apply(s, Pull))
  {
  }

  lemma OtherKeepsStop(s: State, e: Event)
    requires Inv(s) && StopUnderWay(s) && Enabled(s, e)
    requires !e.WorkerReads? && !e.Turn? && !e.Leave? && !e.Pull?
    ensures StopUnderWay(Apply(s, e))
  {
  }

  lemma LeavingKeepsStop(s: State, e: Event, c: Client)
    requires Enabled(s, e) && (e == Turn || e == Leave) && c == Apply(s, e).client && s.client.phase != Draining
    requires Apply(s, e).toWorker == s.toWorker + Stops(s.client, c) && Waiting(Apply(s, e)) == Waiting(s)
    ensures StopUnderWay(Apply(s, e))
  {
    if c.phase == Draining { StopIsSent(s, c); }
  }

  lemma StopIsSent(s: State, c: Client)
    requires c.call == s.client.call && c.phase == Draining && s.client.phase != Draining
    ensures Has(s.toWorker + Stops(s.client, c), Stop(c.call))
  {
    assert (s.toWorker + [Stop(c.call)])[|s.toWorker|] == Stop(c.call);
  }

  lemma ReadKeepsStop(s: State)
    requires Inv(s) && StopUnderWay(s) && Enabled(s, WorkerReads)
    ensures StopUnderWay(Apply(s, WorkerReads))
  {
    var m, rest := Stop(s.client.call), s.toWorker[1..];
    if Has(s.toWorker, m) && s.toWorker[0] != m {
      var i :| 0 <= i < |s.toWorker| && s.toWorker[i] == m;
      assert rest[i - 1] == m;
    }
    if !Waiting(s) { assert Later(s.toWorker[0], s.client.call); }
  }

  /** In flight, failing nothing, a drain has a move to come until its query's end has been read. */
  predicate Drains(s: State) { Inv(s) && StopUnderWay(s) && s.client.phase == Draining && !s.client.failed }

  lemma DrainMoves(s: State)
    requires Drains(s) && !Enabled(s, Drained)
    ensures Enabled(s, WorkerReads) || Enabled(s, ClientReads) || Enabled(s, WorkerEnds(true))
  {
  }

  lemma MoveDrains(s: State, e: Event)
    requires Drains(s) && Enabled(s, e) && ByItself(e)
    ensures Drains(Apply(s, e))
  {
    StepKeeps(s, e);
    StepKeepsStop(s, e);
  }

  /**
    * A drain ends: whichever of these moves are made there are at most `Left` of them,
    * and some are left until the generator may return.
    */
  lemma DrainEnds(s: State) returns (events: seq<Event>)
    requires Drains(s)
    ensures |events| <= Left(s) && (forall i | 0 <= i < |events| :: ByItself(events[i]))
    ensures CanRun(s, events) && Enabled(Run(s, events), Drained)
    decreases Left(s)
  {
    if Enabled(s, Drained) {
      events := [];
    } else {
      DrainMoves(s);
      var e := if Enabled(s, WorkerReads) then WorkerReads else if Enabled(s, ClientReads) then ClientReads else WorkerEnds(true);
      EveryMoveCounts(s, e);
      MoveDrains(s, e);
      var more := DrainEnds(Apply(s, e));
      events := [e] + more;
      assert events[1..] == more;
    }
  }

  lemma {:induction false} RunKeepsStop(s: State, events: seq<Event>)
    requires Inv(s) && StopUnderWay(s) && CanRun(s, events) && HeldRun(s, events)
    ensures Inv(Run(s, events)) && StopUnderWay(Run(s, events))
    decreases |events|
  {
    if events != [] {
      StepKeeps(s, events[0]);
      StepKeepsStop(s, events[0]);
      RunKeepsStop(Apply(s, events[0]), events[1..]);
    }
  }

  /** In every held run, a query that has left its loop and lost no message drains. */
  lemma QueryDrains(s: State, events: seq<Event>) returns (more: seq<Event>)
    requires Init(s) && CanRun(s, events) && HeldRun(s, events)
    requires Run(s, events).client.phase == Draining && !Run(s, events).client.failed
    ensures (forall i | 0 <= i < |more| :: ByItself(more[i])) && CanRun(Run(s, events), more)
    ensures Enabled(Run(Run(s, events), more), Drained) && |more| <= Left(Run(s, events))
  {
    InitKeeps(s);
    RunKeepsStop(s, events);
    more := DrainEnds(Run(s, events));
  }
}
