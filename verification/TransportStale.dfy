/**
  * A generator the next query found still open: its consumer was not done reading
  * when the reuse guard let that query through. It goes on as the same loop over
  * the same fields, which are the next query's by then.
  */
module TransportStale {
  import opened TransportModel
  import opened TransportDelivery

  /**
    * The transport, the stale generators, each where it stands in its loop, and the
    * chunks of the present query that went to their consumers.
    */
  datatype Shared = Shared(now: State, stale: seq<Phase>, strayed: seq<nat>)

  datatype Move =
    | Own(event: Event)
    | Resume(i: nat)    // a stale consumer asks for more
    | Advance(i: nat)   // one turn of a stale loop
    | Abandon(i: nat)   // a stale consumer leaves: its `finally` has nothing to do

  predicate Enabled2(s: Shared, m: Move)
  {
    match m
    case Own(e) => Enabled(s.now, e)
    case Resume(i) => i < |s.stale| && s.stale[i].Yielded?
    case Advance(i) => i < |s.stale| && s.stale[i] == Looping && Awake(s.now.client.(phase := Looping))
    case Abandon(i) => i < |s.stale| && s.stale[i].Yielded?
  }

  /** The stale loop is handed a value: nothing ended it first. */
  predicate Takes(c: Client) { c.inbox != [] && !c.stopped && !c.failed }

  function Apply2(s: Shared, m: Move): Shared
    requires Enabled2(s, m)
  {
    var c := s.now.client;
    match m
    case Own(e) =>
      var t := Apply(s.now, e);
      if e.Post? then Shared(t, if Open(c) then s.stale + [c.phase] else s.stale, []) else s.(now := t)
    case Resume(i) =>
      // the credit goes out under the present query's call
      s.(stale := s.stale[i := Looping],
         now := s.now.(toWorker := s.now.toWorker + if s.stale[i].item.Rows? then [Credit(c.call)] else []))
    case Advance(i) =>
      if !Takes(c) then s.(stale := s.stale[i := Idle])
      else
        var x := c.inbox[0];
        Shared(s.now.(client := c.(inbox := c.inbox[1..])), s.stale[i := Yielded(x)],
               if x.Rows? then s.strayed + [x.rows] else s.strayed)
    case Abandon(i) => s.(stale := s.stale[i := Idle])
  }

  predicate CanRun2(s: Shared, moves: seq<Move>)
    decreases |moves|
  {
    moves == [] || (Enabled2(s, moves[0]) && CanRun2(Apply2(s, moves[0]), moves[1..]))
  }

  function Run2(s: Shared, moves: seq<Move>): Shared
    requires CanRun2(s, moves)
    decreases |moves|
  {
    if moves == [] then s else Run2(Apply2(s, moves[0]), moves[1..])
  }

  predicate Posts(m: Move) { m.Own? && m.event.Post? }

  predicate NoPost(moves: seq<Move>) { forall i | 0 <= i < |moves| :: !Posts(moves[i]) }

  /** Before the next query is posted, a chunk of this one reaches a consumer that did not ask for it. */
  ghost predicate MayStray(s: Shared)
  {
    exists moves :: CanRun2(s, moves) && NoPost(moves) && Run2(s, moves).strayed != []
  }

  // ---------------------------------------------------------------- when nothing strays

  lemma {:induction false} NobodyStale(s: Shared, moves: seq<Move>)
    requires s.stale == [] && s.strayed == [] && CanRun2(s, moves) && NoPost(moves)
    ensures Run2(s, moves).strayed == []
    decreases |moves|
  {
    if moves != [] {
      assert !Posts(moves[0]);
      NobodyStale(Apply2(s, moves[0]), moves[1..]);
    }
  }

  /** A query without rows has no chunk anywhere. */
  predicate NoChunk(s: Shared)
  {
    && s.strayed == []
    && (s.now.worker.running ==> s.now.worker.todo == [])
    && (forall i | 0 <= i < |s.now.toWorker| :: s.now.toWorker[i].Query? ==> s.now.toWorker[i].rows == [])
    && (forall i | 0 <= i < |s.now.toClient| :: !s.now.toClient[i].Chunk?)
    && (forall i | 0 <= i < |s.now.client.inbox| :: s.now.client.inbox[i] == Count)
  }

  lemma OwnKeepsNoChunk(s: Shared, e: Event)
    requires NoChunk(s) && Enabled(s.now, e) && !e.Post?
    ensures NoChunk(Apply2(s, Own(e)))
  {
    match e
    case WorkerReads =>
    case ClientReads =>
    case Turn => TurnKeepsNoChunk(s);
    case _ =>
  }

  lemma TurnKeepsNoChunk(s: Shared)
    requires NoChunk(s) && Enabled(s.now, Turn)
    ensures NoChunk(Apply2(s, Own(Turn)))
  {
    var c := s.now.client;
    assert LoopTurn(c).inbox == [] || LoopTurn(c).inbox == c.inbox || LoopTurn(c).inbox == c.inbox[1..];
  }

  lemma NoChunkStays(s: Shared, m: Move)
    requires NoChunk(s) && Enabled2(s, m) && !Posts(m)
    ensures NoChunk(Apply2(s, m))
  {
    match m
    case Own(e) => OwnKeepsNoChunk(s, e);
    case Resume(i) =>
    case Advance(i) =>
    case Abandon(i) =>
  }

  lemma {:induction false} NoRowsNoStray(s: Shared, moves: seq<Move>)
    requires NoChunk(s) && CanRun2(s, moves) && NoPost(moves)
    ensures Run2(s, moves).strayed == []
    decreases |moves|
  {
    if moves != [] {
      assert !Posts(moves[0]);
      NoChunkStays(s, moves[0]);
      NoRowsNoStray(Apply2(s, moves[0]), moves[1..]);
    }
  }

  // ------------------------------------------------------------------ when a chunk does

  lemma StraysNow(s: Shared)
    requires s.strayed != []
    ensures MayStray(s)
  {
    assert CanRun2(s, []) && Run2(s, []) == s;
  }

  lemma StraysAfter(s: Shared, m: Move)
    requires Enabled2(s, m) && !Posts(m) && MayStray(Apply2(s, m))
    ensures MayStray(s)
  {
    var moves :| CanRun2(Apply2(s, m), moves) && NoPost(moves) && Run2(Apply2(s, m), moves).strayed != [];
    assert ([m] + moves)[1..] == moves;
    assert CanRun2(s, [m] + moves) && Run2(s, [m] + moves) == Run2(Apply2(s, m), moves);
  }

  /** A stale consumer whose turn comes while a chunk is queued is given it. */
  lemma QueuedChunkStrays(s: Shared, i: nat)
    requires i < |s.stale| && (s.stale[i] == Looping || s.stale[i].Yielded?)
    requires Takes(s.now.client) && s.now.client.inbox[0].Rows?
    ensures MayStray(s)
  {
    if s.stale[i] == Looping {
      StraysNow(Apply2(s, Advance(i)));
      StraysAfter(s, Advance(i));
    } else {
      var t := Apply2(s, Resume(i));
      StraysNow(Apply2(t, Advance(i)));
      StraysAfter(t, Advance(i));
      StraysAfter(s, Resume(i));
    }
  }

  /** The worker runs the query with a credit and rows to send, and its consumer has had nothing yet. */
  predicate Fetching(s: State)
  {
    && s.worker.running && s.worker.todo != [] && s.worker.gate.credits > 0 && !s.worker.gate.stopped
    && s.worker.gate.call == s.client.call && s.client.inflight && s.toClient == [] && s.client.inbox == []
    && !s.client.stopped && !s.client.failed
  }

  lemma FetchedChunkStrays(s: Shared, i: nat)
    requires i < |s.stale| && (s.stale[i] == Looping || s.stale[i].Yielded?) && Fetching(s.now)
    ensures MayStray(s)
  {
    var t := Apply2(s, Own(WorkerSends));
    assert t.now.toClient == [Chunk(s.now.client.call, s.now.worker.todo[0])];
    var u := Apply2(t, Own(ClientReads));
    assert u.now.client.inbox == [Rows(s.now.worker.todo[0])];
    QueuedChunkStrays(u, i);
    StraysAfter(t, Own(ClientReads));
    StraysAfter(s, Own(WorkerSends));
  }

  /** The query is on its way, behind what is left over from the ones before. */
  predicate OnItsWay(s: State)
  {
    && Inv(s) && Waiting(s) && s.rows != [] && s.window > 0 && Behind(s.toWorker, true) == []
    && s.client.inflight && s.client.inbox == [] && !s.client.stopped && !s.client.failed
  }

  lemma {:induction false} PostedRowsStray(s: Shared, i: nat)
    requires i < |s.stale| && (s.stale[i] == Looping || s.stale[i].Yielded?) && OnItsWay(s.now)
    ensures MayStray(s)
    decreases |s.now.toWorker|
  {
    var n, t := s.now, Apply2(s, Own(WorkerReads));
    WorkerReadsKeeps(n);
    FirstRead(n.toWorker, n.client.call, n.window, n.rows, true);
    if n.toWorker[0].Query? {
      assert n.toWorker[0] == Query(n.client.call, n.window, n.rows);
      FetchedChunkStrays(t, i);
    } else {
      assert Waiting(t.now) && t.now.client == n.client;
      PostedRowsStray(t, i);
    }
    StraysAfter(s, Own(WorkerReads));
  }

  /**
    * A consumer can be given another query's rows exactly when that query, which
    * has rows, was posted while the consumer's own was still open.
    */
  lemma StraysIff(s: Shared, rows: seq<nat>, window: nat)
    requires Inv(s.now) && s.stale == [] && Enabled2(s, Own(Post(rows, window)))
    ensures MayStray(Apply2(s, Own(Post(rows, window)))) <==> Open(s.now.client) && rows != []
  {
    var t := Apply2(s, Own(Post(rows, window)));
    PostKeeps(s.now, rows, window);
    if !Open(s.now.client) {
      if MayStray(t) {
        var moves :| CanRun2(t, moves) && NoPost(moves) && Run2(t, moves).strayed != [];
        NobodyStale(t, moves);
        assert false;
      }
    } else if rows == [] {
      NothingLeftOver(s.now, rows, window);
      if MayStray(t) {
        var moves :| CanRun2(t, moves) && NoPost(moves) && Run2(t, moves).strayed != [];
        NoRowsNoStray(t, moves);
        assert false;
      }
    } else {
      OutgoingPost(s.now.toWorker, s.now.client.call, s.now.client.call + 1, window, rows);
      PostedRowsStray(t, 0);
    }
  }

  lemma NothingLeftOver(s: State, rows: seq<nat>, window: nat)
    requires Inv(s) && Enabled(s, Post(rows, window))
    ensures var t := Apply(s, Post(rows, window));
            && !t.worker.running && t.toClient == [] && t.client.inbox == []
            && forall i | 0 <= i < |t.toWorker| :: t.toWorker[i].Query? ==> t.toWorker[i].rows == rows
  {
    assert AllLater(s.toWorker, s.client.call);
    var t := Apply(s, Post(rows, window));
    forall i | 0 <= i < |t.toWorker|
      ensures t.toWorker[i].Query? ==> t.toWorker[i].rows == rows
    {
      if i < |s.toWorker| { assert Later(s.toWorker[i], s.client.call); }
    }
  }

  /** The credit a stale consumer's chunk brings is one too many for the query it goes to. */
  lemma StaleCreditIsExtra(s: Shared, i: nat)
    requires Inv(s.now) && Open(s.now.client) && Enabled2(s, Resume(i)) && s.stale[i].item.Rows?
    ensures var t := Apply2(s, Resume(i)).now;
            (if Waiting(t) then t.window else t.worker.gate.credits)
            + |Chunks(t.toClient)| + |RowsOf(t.client.inbox)| + InHand(t.client)
            + Credits(Behind(t.toWorker, Waiting(t))) + t.garbled == t.window + 1
  {
    var n := s.now;
    OutgoingAppend(n.toWorker, n.client.call, n.window, n.rows, Waiting(n), Credit(n.client.call));
    CreditsAppend(Behind(n.toWorker, Waiting(n)), Credit(n.client.call));
  }

  // ------------------------------------------------------------------------- runs

  predicate HeldMoves(s: Shared, moves: seq<Move>)
    requires CanRun2(s, moves)
    decreases |moves|
  {
    moves != [] ==> (moves[0].Own? ==> Held(s.now, moves[0].event)) && HeldMoves(Apply2(s, moves[0]), moves[1..])
  }

  /** While every query holds its worker until it is idle, no generator goes stale and no chunk strays. */
  lemma {:induction false} HeldNeverStrays(s: Shared, moves: seq<Move>)
    requires Inv(s.now) && s.stale == [] && s.strayed == [] && CanRun2(s, moves) && HeldMoves(s, moves)
    ensures var t := Run2(s, moves); Inv(t.now) && t.stale == [] && t.strayed == []
    decreases |moves|
  {
    if moves != [] {
      StepKeeps(s.now, moves[0].event);
      HeldNeverStrays(Apply2(s, moves[0]), moves[1..]);
    }
  }

  /** The consumer that still holds its first chunk when the next query is posted can be given that query's. */
  lemma FirstConsumerIsGivenTheSecondsRows() returns (s: State)
    ensures Reachable(s) && s.client.phase == Yielded(Rows(10)) && s.rows == [10, 20]
    ensures Enabled2(Shared(s, [], []), Own(Post([30], 2))) && MayStray(Apply2(Shared(s, [], []), Own(Post([30], 2))))
  {
    s := FirstChunkInHand();
    StraysIff(Shared(s, [], []), [30], 2);
  }
}
