/** What the transport keeps, and what a query that holds its worker until idle is given. */
module TransportDelivery {
  import opened Basics
  import opened TransportModel

  // ----------------------------------------------------------------- the channels

  function Chunks(q: seq<ToClient>): seq<nat>
  {
    if q == [] then [] else (if q[0].Chunk? then [q[0].rows] else []) + Chunks(q[1..])
  }

  function RowsOf(inbox: seq<Item>): seq<nat>
  {
    if inbox == [] then [] else (if inbox[0].Rows? then [inbox[0].rows] else []) + RowsOf(inbox[1..])
  }

  function Credits(q: seq<ToWorker>): nat
  {
    if q == [] then 0 else (if q[0].Credit? then 1 else 0) + Credits(q[1..])
  }

  predicate Later(m: ToWorker, call: nat) { !m.Query? && m.call == call }

  predicate AllLater(q: seq<ToWorker>, call: nat) { forall i | 0 <= i < |q| :: Later(q[i], call) }

  /** What is left over from earlier queries, then the query, then what was sent about it; only the last once it was read. */
  predicate Outgoing(q: seq<ToWorker>, call: nat, window: nat, rows: seq<nat>, waiting: bool)
  {
    if !waiting then AllLater(q, call)
    else
      && q != []
      && if q[0].Query? then q[0] == Query(call, window, rows) && AllLater(q[1..], call)
         else q[0].call < call && Outgoing(q[1..], call, window, rows, true)
  }

  /** The credits and stops sent about the current query: everything behind it in the channel. */
  function Behind(q: seq<ToWorker>, waiting: bool): seq<ToWorker>
  {
    if !waiting then q
    else if q == [] then []
    else Behind(q[1..], !q[0].Query?)
  }

  predicate NoStop(q: seq<ToWorker>) { forall i | 0 <= i < |q| :: !q[i].Stop? }

  predicate Incoming(q: seq<ToClient>, call: nat)
  {
    forall i | 0 <= i < |q| :: q[i].call == call && (i < |q| - 1 ==> q[i].Chunk?)
  }

  predicate Closed(q: seq<ToClient>) { q != [] && !q[|q| - 1].Chunk? }

  predicate DoneIn(q: seq<ToClient>) { q != [] && q[|q| - 1].Done? }

  lemma {:induction false} ChunksAppend(q: seq<ToClient>, m: ToClient)
    ensures Chunks(q + [m]) == Chunks(q) + if m.Chunk? then [m.rows] else []
  {
    if q == [] {
      assert (q + [m])[1..] == [];
    } else {
      ChunksAppend(q[1..], m);
      assert (q + [m])[1..] == q[1..] + [m];
    }
  }

  lemma {:induction false} RowsAppend(inbox: seq<Item>, x: Item)
    ensures RowsOf(inbox + [x]) == RowsOf(inbox) + if x.Rows? then [x.rows] else []
  {
    if inbox == [] {
      assert (inbox + [x])[1..] == [];
    } else {
      RowsAppend(inbox[1..], x);
      assert (inbox + [x])[1..] == inbox[1..] + [x];
    }
  }

  lemma {:induction false} CreditsAppend(q: seq<ToWorker>, m: ToWorker)
    ensures Credits(q + [m]) == Credits(q) + if m.Credit? then 1 else 0
  {
    if q == [] {
      assert (q + [m])[1..] == [];
    } else {
      CreditsAppend(q[1..], m);
      assert (q + [m])[1..] == q[1..] + [m];
    }
  }

  lemma {:induction false} OutgoingAppend(q: seq<ToWorker>, call: nat, window: nat, rows: seq<nat>, waiting: bool, m: ToWorker)
    requires Outgoing(q, call, window, rows, waiting) && Later(m, call)
    ensures Outgoing(q + [m], call, window, rows, waiting)
    ensures Behind(q + [m], waiting) == Behind(q, waiting) + [m]
  {
    if waiting {
      assert (q + [m])[1..] == q[1..] + [m];
      if !q[0].Query? { OutgoingAppend(q[1..], call, window, rows, true, m); }
    }
  }

  /** A query posted behind what is left over from the ones before. */
  lemma {:induction false} OutgoingPost(q: seq<ToWorker>, call: nat, next: nat, window: nat, rows: seq<nat>)
    requires AllLater(q, call) && call < next
    ensures Outgoing(q + [Query(next, window, rows)], next, window, rows, true)
    ensures Behind(q + [Query(next, window, rows)], true) == []
  {
    var m := Query(next, window, rows);
    if q == [] {
      assert (q + [m])[1..] == [];
    } else {
      OutgoingPost(q[1..], call, next, window, rows);
      assert (q + [m])[1..] == q[1..] + [m];
    }
  }

  lemma {:induction false} FirstRead(q: seq<ToWorker>, call: nat, window: nat, rows: seq<nat>, waiting: bool)
    requires Outgoing(q, call, window, rows, waiting) && q != []
    ensures Outgoing(q[1..], call, window, rows, waiting && !q[0].Query?)
    ensures Behind(q[1..], waiting && !q[0].Query?) == if waiting then Behind(q, waiting) else Behind(q, waiting)[1..]
  {
  }

  // -------------------------------------------------------------------- invariant

  /** The worker has not read the current query yet. */
  predicate Waiting(s: State) { s.worker.gate.call != s.client.call }

  predicate Open(c: Client) { c.phase == Looping || c.phase.Yielded? }

  /** The chunk the consumer has, not credited yet. */
  function InHand(c: Client): nat { if c.phase.Yielded? && c.phase.item.Rows? then 1 else 0 }

  /** The channels against the worker and the generator. */
  predicate ChannelsOk(s: State)
  {
    && s.worker.gate.call <= s.client.call
    && Outgoing(s.toWorker, s.client.call, s.window, s.rows, Waiting(s))
    && Incoming(s.toClient, s.client.call)
    && (s.worker.running ==> !Waiting(s) && !Closed(s.toClient))
    && (Waiting(s) ==> s.toClient == [] && s.sent == [] && s.garbled == 0)
    && (Closed(s.toClient) ==> s.client.inflight && !s.client.rejected)
    && (Waiting(s) || s.worker.running ==> s.client.inflight && !s.client.rejected)
    && (!s.client.inflight || s.client.rejected ==> s.toClient == [])
    && (!Waiting(s) && !s.worker.running && s.client.inflight && !s.client.rejected ==> Closed(s.toClient) || s.client.failed)
    && (s.client.phase == Idle ==> !s.client.inflight)
    && (!s.client.inflight ==> !s.client.rejected)
    && (s.client.phase == Idle ==> s.client.inbox == [])
  }

  /** A stop is only sent by the query it is about, once it has left its loop. */
  predicate StopsOk(s: State)
  {
    Open(s.client) ==> NoStop(Behind(s.toWorker, Waiting(s))) && (!Waiting(s) ==> !s.worker.gate.stopped)
  }

  /** The worker's credits, the chunks under way, and the credits under way make the window. */
  predicate CreditsOk(s: State)
  {
    Open(s.client) ==>
      && s.window > 0
      && (if Waiting(s) then s.window else s.worker.gate.credits)
         + |Chunks(s.toClient)| + |RowsOf(s.client.inbox)| + InHand(s.client)
         + Credits(Behind(s.toWorker, Waiting(s))) + s.garbled == s.window
  }

  /** The inbox holds rows, then the count once the query is done. */
  predicate InboxOk(c: Client, counted: bool)
  {
    && (forall i | 0 <= i < |c.inbox| :: c.inbox[i].Count? ==> i == |c.inbox| - 1)
    && (c.inflight ==> forall i | 0 <= i < |c.inbox| :: c.inbox[i].Rows?)
    && (Open(c) ==> (!c.inflight <==> counted || (c.inbox != [] && c.inbox[|c.inbox| - 1].Count?)))
    && (counted && Open(c) ==> c.inbox == [])
  }

  predicate DataOk(s: State)
  {
    && IsPrefix(s.sent, s.rows) && IsPrefix(s.got, s.sent)
    && (s.garbled > 0 ==> s.client.failed)
    && (Open(s.client) && s.garbled == 0 ==> s.sent == s.got + RowsOf(s.client.inbox) + Chunks(s.toClient))
    && (!Waiting(s) && s.worker.running ==> s.sent + s.worker.todo == s.rows)
    && (Waiting(s) ==> s.got == [] && s.client.inbox == [] && !s.counted)
    // a count on its way, not cut short: every row was sent
    && (Open(s.client) && !s.client.stopped && !s.counted
          && (!s.client.inflight || DoneIn(s.toClient)) ==>
          s.sent == s.rows)
    && (s.counted ==> s.got == s.rows)
    && (!Open(s.client) && s.client.outcome == Completed ==> s.counted)
    && (!Open(s.client) && s.client.outcome == QueryFailed && s.garbled == 0 ==> s.got == s.sent)
    && (s.client.phase == Draining && s.client.outcome == QueryFailed ==> s.client.rejected)
  }

  predicate Inv(s: State)
  {
    ChannelsOk(s) && StopsOk(s) && CreditsOk(s) && InboxOk(s.client, s.counted) && DataOk(s)
  }

  lemma SentMore(sent: seq<nat>, todo: seq<nat>, rows: seq<nat>, got: seq<nat>)
    requires sent + todo == rows && todo != [] && IsPrefix(got, sent)
    ensures IsPrefix(sent + [todo[0]], rows) && (sent + [todo[0]]) + todo[1..] == rows && IsPrefix(got, sent + [todo[0]])
  {
    assert rows[..|sent| + 1] == sent + [todo[0]];
  }

  lemma InitKeeps(s: State)
    requires Init(s)
    ensures Inv(s)
  {
  }

  lemma PostKeeps(s: State, rows: seq<nat>, window: nat)
    requires Inv(s) && Enabled(s, Post(rows, window))
    ensures Inv(Apply(s, Post(rows, window)))
  {
    OutgoingPost(s.toWorker, s.client.call, s.client.call + 1, window, rows);
  }

  lemma WorkerReadsKeeps(s: State)
    requires Inv(s) && Enabled(s, WorkerReads)
    ensures Inv(Apply(s, WorkerReads))
  {
    FirstRead(s.toWorker, s.client.call, s.window, s.rows, Waiting(s));
  }

  lemma WorkerSendsKeeps(s: State)
    requires Inv(s) && Enabled(s, WorkerSends)
    ensures Inv(Apply(s, WorkerSends))
  {
    var t := Apply(s, WorkerSends);
    var m := Chunk(s.worker.gate.call, s.worker.todo[0]);
    ChunksAppend(s.toClient, m);
    assert t.toClient == s.toClient + [m] && t.client == s.client && t.toWorker == s.toWorker && Waiting(t) == Waiting(s);
    assert ChannelsOk(t) && CreditsOk(t);
    SentMore(s.sent, s.worker.todo, s.rows, s.got);
    assert t.sent + t.worker.todo == s.rows;
    assert s.got + RowsOf(s.client.inbox) + Chunks(t.toClient) == (s.got + RowsOf(s.client.inbox) + Chunks(s.toClient)) + [m.rows];
    assert DataOk(t);
  }

  lemma WorkerEndsKeeps(s: State, ok: bool)
    requires Inv(s) && Enabled(s, WorkerEnds(ok))
    ensures Inv(Apply(s, WorkerEnds(ok)))
  {
    ChunksAppend(s.toClient, if ok then Done(s.worker.gate.call) else Error(s.worker.gate.call));
  }

  lemma ChunkReadKeeps(s: State)
    requires Inv(s) && Enabled(s, ClientReads) && s.toClient[0].Chunk?
    ensures Inv(Apply(s, ClientReads))
  {
    var t, x := Apply(s, ClientReads), Rows(s.toClient[0].rows);
    RowsAppend(s.client.inbox, x);
    assert t.client == s.client.(inbox := s.client.inbox + [x]) && Waiting(t) == Waiting(s);
    assert ChannelsOk(t) && StopsOk(t) && InboxOk(t.client, t.counted);
    assert RowsOf(s.client.inbox) + Chunks(s.toClient) == RowsOf(t.client.inbox) + Chunks(t.toClient);
    assert s.got + RowsOf(s.client.inbox) + Chunks(s.toClient) == s.got + RowsOf(t.client.inbox) + Chunks(t.toClient);
    assert DoneIn(t.toClient) ==> DoneIn(s.toClient);
  }

  lemma DoneReadKeeps(s: State)
    requires Inv(s) && Enabled(s, ClientReads) && s.toClient[0].Done?
    ensures Inv(Apply(s, ClientReads))
  {
    var t := Apply(s, ClientReads);
    RowsAppend(s.client.inbox, Count);
    assert |s.toClient| == 1 && t.toClient == [] && DoneIn(s.toClient) && s.client.inflight;
    assert t.client == s.client.(inbox := s.client.inbox + [Count], inflight := false);
    assert Chunks(s.toClient) == [];
    assert ChannelsOk(t) && StopsOk(t) && CreditsOk(t) && InboxOk(t.client, t.counted);
  }

  lemma ErrorReadKeeps(s: State)
    requires Inv(s) && Enabled(s, ClientReads) && s.toClient[0].Error?
    ensures Inv(Apply(s, ClientReads))
  {
    var t := Apply(s, ClientReads);
    assert |s.toClient| == 1 && t.toClient == [] && s.client.inflight;
    assert t.client == s.client.(rejected := true) && Chunks(s.toClient) == [];
    assert ChannelsOk(t) && StopsOk(t) && CreditsOk(t) && InboxOk(t.client, t.counted);
  }

  lemma GarbleKeeps(s: State)
    requires Inv(s) && Enabled(s, Garble)
    ensures Inv(Apply(s, Garble))
  {
  }

  lemma TurnKeeps(s: State)
    requires Inv(s) && Enabled(s, Turn)
    ensures Inv(Apply(s, Turn))
  {
    if LoopTurn(s.client).phase.Yielded? { YieldKeeps(s); } else { UnwindKeeps(s, LoopTurn(s.client).outcome); }
  }

  lemma YieldKeeps(s: State)
    requires Inv(s) && Enabled(s, Turn) && LoopTurn(s.client).phase.Yielded?
    ensures Inv(Apply(s, Turn))
  {
    var t, x := Apply(s, Turn), s.client.inbox[0];
    assert s.toWorker + [] == s.toWorker;
    assert t.client == s.client.(phase := Yielded(x), inbox := s.client.inbox[1..]);
    assert RowsOf(s.client.inbox) == (if x.Rows? then [x.rows] else []) + RowsOf(t.client.inbox);
    YieldKeepsData(s);
    assert ChannelsOk(t) && StopsOk(t) && CreditsOk(t) && InboxOk(t.client, t.counted);
  }

  lemma {:induction false} NextRows(got: seq<nat>, inbox: seq<Item>, wire: seq<nat>, sent: seq<nat>)
    requires sent == got + RowsOf(inbox) + wire && inbox != [] && inbox[0].Rows?
    ensures sent == (got + [inbox[0].rows]) + RowsOf(inbox[1..]) + wire
    ensures IsPrefix(got + [inbox[0].rows], sent)
  {
    Regroup(got, inbox[0].rows, RowsOf(inbox[1..]), wire);
  }

  lemma Regroup(got: seq<nat>, x: nat, rest: seq<nat>, wire: seq<nat>)
    ensures got + ([x] + rest) + wire == (got + [x]) + rest + wire
    ensures IsPrefix(got + [x], (got + [x]) + rest + wire)
  {
    var a, all := got + [x], (got + [x]) + rest + wire;
    assert all == a + (rest + wire);
    assert got + ([x] + rest) == a + rest;
  }

  lemma YieldKeepsData(s: State)
    requires Inv(s) && Enabled(s, Turn) && LoopTurn(s.client).phase.Yielded?
    ensures DataOk(Apply(s, Turn))
  {
    if s.client.inbox[0].Rows? {
      NextRows(s.got, s.client.inbox, Chunks(s.toClient), s.sent);
    } else {
      YieldCountKeepsData(s);
    }
  }

  lemma YieldCountKeepsData(s: State)
    requires Inv(s) && Enabled(s, Turn) && LoopTurn(s.client).phase == Yielded(Count)
    ensures DataOk(Apply(s, Turn))
  {
    var t := Apply(s, Turn);
    assert s.client.inbox == [Count] && s.toClient == [] && !s.counted;
    assert s.sent == s.got + RowsOf([Count]) + Chunks([]) == s.got;
    assert t.got == s.got && t.client.inbox == [];
  }

  lemma UnwindKeeps(s: State, outcome: Outcome)
    requires Inv(s) && Enabled(s, Turn) && LoopTurn(s.client) == Unwind(s.client, outcome)
    ensures Inv(Apply(s, Turn))
  {
    var t := Apply(s, Turn);
    if s.client.inflight {
      OutgoingAppend(s.toWorker, s.client.call, s.window, s.rows, Waiting(s), Stop(s.client.call));
    } else {
      assert s.toWorker + [] == s.toWorker;
    }
    assert !Open(t.client) && ChannelsOk(t) && StopsOk(t) && CreditsOk(t) && InboxOk(t.client, t.counted);
    assert outcome == QueryFailed && s.garbled == 0 ==> s.client.inbox == [] && s.toClient == [];
  }

  lemma PullKeeps(s: State)
    requires Inv(s) && Enabled(s, Pull)
    ensures Inv(Apply(s, Pull))
  {
    var t, m := Apply(s, Pull), Credit(s.client.call);
    assert s.toWorker + [] == s.toWorker;
    OutgoingAppend(s.toWorker, s.client.call, s.window, s.rows, Waiting(s), m);
    CreditsAppend(Behind(s.toWorker, Waiting(s)), m);
    assert t.client == s.client.(phase := Looping) && Waiting(t) == Waiting(s) && t.toClient == s.toClient;
    assert ChannelsOk(t) && InboxOk(t.client, t.counted) && DataOk(t);
    assert StopsOk(t);
    assert CreditsOk(t);
  }

  lemma LeaveKeeps(s: State)
    requires Inv(s) && Enabled(s, Leave)
    ensures Inv(Apply(s, Leave))
  {
    if s.client.inflight { OutgoingAppend(s.toWorker, s.client.call, s.window, s.rows, Waiting(s), Stop(s.client.call)); }
  }

  lemma InterruptKeeps(s: State)
    requires Inv(s) && Enabled(s, Interrupt)
    ensures Inv(Apply(s, Interrupt))
  {
  }

  lemma DrainedKeeps(s: State)
    requires Inv(s) && Enabled(s, Drained)
    ensures Inv(Apply(s, Drained))
  {
  }

  lemma StepKeeps(s: State, e: Event)
    requires Inv(s) && Enabled(s, e) && Held(s, e)
    ensures Inv(Apply(s, e))
  {
    match e
    case Post(rows, window) => PostKeeps(s, rows, window);
    case WorkerReads => WorkerReadsKeeps(s);
    case WorkerSends => WorkerSendsKeeps(s);
    case WorkerEnds(ok) => WorkerEndsKeeps(s, ok);
    case ClientReads =>
      if s.toClient[0].Chunk? { ChunkReadKeeps(s); }
      else if s.toClient[0].Done? { DoneReadKeeps(s); }
      else { ErrorReadKeeps(s); }
    case Garble => GarbleKeeps(s);
    case Turn => TurnKeeps(s);
    case Pull => PullKeeps(s);
    case Leave => LeaveKeeps(s);
    case Interrupt => InterruptKeeps(s);
    case Drained => DrainedKeeps(s);
  }

  lemma {:induction false} RunKeeps(s: State, events: seq<Event>)
    requires Inv(s) && CanRun(s, events) && HeldRun(s, events)
    ensures Inv(Run(s, events))
    decreases |events|
  {
    if events != [] {
      StepKeeps(s, events[0]);
      RunKeeps(Apply(s, events[0]), events[1..]);
    }
  }

  // ---------------------------------------------------------------------- theorems

  /** The window, at every moment of a query its consumer is still reading. */
  lemma CreditsAreConserved(s: State, events: seq<Event>)
    requires Init(s) && CanRun(s, events) && HeldRun(s, events)
    ensures var t := Run(s, events);
            Open(t.client) ==>
              (if Waiting(t) then t.window else t.worker.gate.credits)
              + |Chunks(t.toClient)| + |RowsOf(t.client.inbox)| + InHand(t.client)
              + Credits(Behind(t.toWorker, Waiting(t))) + t.garbled == t.window
  {
    InitKeeps(s);
    RunKeeps(s, events);
  }

  /**
    * A query that holds its worker until idle is given its own chunks, in order,
    * none twice; every one of them if it completes, before the count; every one
    * its worker sent, before the error, if SQLite failed it.
    */
  lemma Delivery(s: State, events: seq<Event>)
    requires Init(s) && CanRun(s, events) && HeldRun(s, events)
    ensures var t := Run(s, events);
            && IsPrefix(t.got, t.rows)
            && (t.counted ==> t.got == t.rows)
            && (t.client.phase == Idle && t.client.outcome == Completed ==> t.counted)
            && (t.client.phase == Idle && t.client.outcome == QueryFailed && t.garbled == 0 ==> t.got == t.sent)
  {
    InitKeeps(s);
    RunKeeps(s, events);
    var t := Run(s, events);
    assert t.sent[..|t.got|] == t.rows[..|t.got|];
  }

  /** A stop the worker reads while it runs a query is about that query, though it does not look at the call. */
  lemma StopsAreForThisQuery(s: State)
    requires Inv(s) && s.worker.running && s.toWorker != [] && s.toWorker[0].Stop?
    ensures s.toWorker[0].call == s.worker.gate.call == s.client.call && !Open(s.client)
  {
  }

  /** The loop never waits for a wake-up that nothing brings: some message or the worker can always move. */
  lemma NoStall(s: State)
    requires Inv(s) && s.client.phase == Looping && !Awake(s.client)
    ensures || Enabled(s, WorkerReads) || Enabled(s, ClientReads) || Enabled(s, WorkerSends) || Enabled(s, WorkerEnds(true))
  {
    if s.toWorker == [] && s.toClient == [] {
      assert s.garbled == 0 && !Waiting(s) && s.worker.running;
      assert s.worker.gate.credits == s.window;
    }
  }

  /**
    * The guard lets the next query through as soon as `done` has come, while the
    * consumer may not have read its inbox: posting then loses chunks exactly when
    * the inbox still holds some.
    */
  lemma EarlyPostLosesIff(s: State, rows: seq<nat>, window: nat)
    requires Inv(s) && Open(s.client) && s.garbled == 0 && Enabled(s, Post(rows, window))
    ensures var t := Apply(s, Post(rows, window));
            && t.client.inbox == []
            && (s.got == s.sent <==> RowsOf(s.client.inbox) == [])
  {
    assert s.toClient == [];
  }

  function Fresh(): State
  {
    State(Client(0, false, false, false, false, Idle, [], Cut), Worker(false, Gate(0, 0, false), []), [], [],
          [], 0, [], [], false, 0)
  }

  ghost predicate Reachable(s: State)
  {
    exists events :: CanRun(Fresh(), events) && Run(Fresh(), events) == s
  }

  lemma {:induction false} OneMore(s: State, events: seq<Event>, e: Event)
    requires CanRun(s, events) && Enabled(Run(s, events), e)
    ensures CanRun(s, events + [e]) && Run(s, events + [e]) == Apply(Run(s, events), e)
    decreases |events|
  {
    if events == [] {
      assert CanRun(Apply(s, e), []);
      assert [e][1..] == [];
    } else {
      assert (events + [e])[1..] == events[1..] + [e];
      OneMore(Apply(s, events[0]), events[1..], e);
    }
  }

  lemma Onward(s: State, e: Event) returns (t: State)
    requires Reachable(s) && Enabled(s, e)
    ensures Reachable(t) && t == Apply(s, e)
    ensures Inv(s) && Held(s, e) ==> Inv(t)
  {
    var events :| CanRun(Fresh(), events) && Run(Fresh(), events) == s;
    OneMore(Fresh(), events, e);
    t := Apply(s, e);
    if Inv(s) && Held(s, e) { StepKeeps(s, e); }
  }

  lemma QueryRuns() returns (s: State)
    ensures Reachable(s) && Inv(s)
    ensures s == Fresh().(client := Posted(Fresh().client), rows := [10, 20], window := 2,
                          worker := Worker(true, Gate(1, 2, false), [10, 20]))
  {
    assert CanRun(Fresh(), []) && Run(Fresh(), []) == Fresh();
    InitKeeps(Fresh());
    s := Onward(Fresh(), Post([10, 20], 2));
    s := Onward(s, WorkerReads);
  }

  /** Two chunks sent within the window, and the query done. */
  lemma TwoChunksSent() returns (s: State)
    ensures Reachable(s) && Inv(s)
    ensures s == Fresh().(client := Posted(Fresh().client), rows := [10, 20], window := 2, sent := [10, 20],
                          worker := Worker(false, Gate(1, 0, false), []), toClient := [Chunk(1, 10), Chunk(1, 20), Done(1)])
  {
    s := QueryRuns();
    s := Onward(s, WorkerSends);
    s := Onward(s, WorkerSends);
    s := Onward(s, WorkerEnds(true));
  }

  /** They have come, and the consumer holds the first. */
  lemma FirstChunkInHand() returns (s: State)
    ensures Reachable(s) && Inv(s)
    ensures s.client.phase == Yielded(Rows(10)) && s.sent == s.rows == [10, 20] && s.got == [10]
    ensures s.client.inbox == [Rows(20), Count] && !s.client.inflight && s.toClient == []
    ensures !s.client.failed && !s.client.stopped && s.garbled == 0
  {
    s := TwoChunksSent();
    s := Onward(s, ClientReads);
    s := Onward(s, ClientReads);
    s := Onward(s, ClientReads);
    assert s.client.inbox == [Rows(10), Rows(20), Count];
    s := Onward(s, Turn);
  }

  /** The next query is posted then, and the second chunk is lost: nothing failed, nothing was stopped. */
  lemma EarlyPostLosesAChunk() returns (s: State, t: State)
    ensures Reachable(s) && s.client.phase == Yielded(Rows(10)) && s.sent == s.rows == [10, 20] && s.got == [10]
    ensures !s.client.failed && !s.client.stopped && s.garbled == 0
    ensures Enabled(s, Post([], 2)) && !Held(s, Post([], 2)) && t == Apply(s, Post([], 2)) && Reachable(t)
    ensures t.client.inbox == [] && t.toClient == []
  {
    s := FirstChunkInHand();
    t := Onward(s, Post([], 2));
  }
}
