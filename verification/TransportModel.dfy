/**
  * One worker's transport: a client generator and a worker joined by two FIFO
  * channels, with a window of credits. A query's rows come in chunks; the client
  * queues them in an inbox and credits each once its consumer has taken it.
  */
module TransportModel {

  datatype ToWorker = Query(call: nat, window: nat, rows: seq<nat>) | Credit(call: nat) | Stop(call: nat)

  datatype ToClient = Chunk(call: nat, rows: nat) | Done(call: nat) | Error(call: nat)

  datatype Item = Rows(rows: nat) | Count

  /** Where the generator stands. `Looping`: inside the delivery loop, between two awaits or yields. */
  datatype Phase = Idle | Looping | Yielded(item: Item) | Draining

  datatype Outcome = Completed | QueryFailed | Broken | Cut

  /** `inflight` and `rejected`: the deferred chunk exists, and was rejected by the query's error. */
  datatype Client = Client(
    call: nat, inflight: bool, rejected: bool, stopped: bool, failed: bool,
    phase: Phase, inbox: seq<Item>, outcome: Outcome)

  datatype Gate = Gate(call: nat, credits: nat, stopped: bool)

  datatype Worker = Worker(running: bool, gate: Gate, todo: seq<nat>)

  /**
    * `rows`, `window` are the current query's; `sent` the chunks its worker sent,
    * `got` those its consumer was given, `counted` whether the count was, and
    * `garbled` how many of its chunks arrived unreadable: for the statements.
    */
  datatype State = State(
    client: Client, worker: Worker, toWorker: seq<ToWorker>, toClient: seq<ToClient>,
    rows: seq<nat>, window: nat, sent: seq<nat>, got: seq<nat>, counted: bool, garbled: nat)

  datatype Event =
    | Post(rows: seq<nat>, window: nat)
    | WorkerReads
    | WorkerSends
    | WorkerEnds(ok: bool)
    | ClientReads
    | Garble
    | Turn        // one turn of the delivery loop
    | Pull        // the consumer asks for more
    | Leave       // the consumer leaves at a yield
    | Interrupt
    | Drained

  // -------------------------------------------------------------- the credit gate

  function GateGrant(g: Gate, call: nat): Gate { if call == g.call then g.(credits := g.credits + 1) else g }

  // -------------------------------------------------------------------- the client

  function ClientReceive(c: Client, m: ToClient): Client
  {
    if !c.inflight || m.call != c.call then c
    else
      match m
      case Chunk(_, rows) => c.(inbox := c.inbox + [Rows(rows)])
      case Done(_) => c.(inbox := c.inbox + [Count], inflight := false)
      case Error(_) => c.(rejected := true)
  }

  /** The generator's `finally`: it stops and drains what is still in flight, or is idle at once. */
  function Unwind(c: Client, outcome: Outcome): Client
  {
    if c.inflight then c.(phase := Draining, outcome := outcome) else Rest(c.(outcome := outcome))
  }

  function Rest(c: Client): Client { c.(phase := Idle, inflight := false, rejected := false, inbox := []) }

  /** Whether the loop's next turn can be taken, or it waits to be woken. */
  predicate Awake(c: Client)
  {
    c.phase == Looping && (c.inbox != [] || !c.inflight || c.rejected || c.failed || c.stopped)
  }

  /**
    * One turn. With an empty inbox the loop awaits the next chunk, a stop or a
    * failure; queued chunks yield to a stop and to a broken transport, not to the
    * query's own error.
    */
  function LoopTurn(c: Client): Client
    requires Awake(c)
  {
    if c.inbox == [] then
      if !c.inflight then Unwind(c, Completed)
      else if c.rejected then Unwind(c, QueryFailed)
      else if c.stopped then Unwind(c, Cut)
      else Unwind(c, Broken)
    else if c.stopped then Unwind(c, Cut)
    else if c.failed then Unwind(c, Broken)
    else c.(phase := Yielded(c.inbox[0]), inbox := c.inbox[1..])
  }

  function Posted(c: Client): Client
  {
    Client(c.call + 1, true, false, false, false, Looping, [], Cut)
  }

  // ---------------------------------------------------------------------- the steps

  /** The reuse guard refuses a query while one is in flight; a generator that drains is left to return first. */
  predicate Enabled(s: State, e: Event)
  {
    match e
    case Post(_, window) => !s.client.inflight && s.client.phase != Draining && window > 0
    case WorkerReads => s.toWorker != []
    case WorkerSends =>
      s.worker.running && s.worker.todo != [] && s.worker.gate.credits > 0 && !s.worker.gate.stopped
    case WorkerEnds(ok) =>
      // it produced everything, was stopped by message or by the shared slot, or fails
      s.worker.running && (ok ==> s.worker.todo == [] || s.worker.gate.stopped || s.client.stopped)
    case ClientReads => s.toClient != []
    case Garble => s.toClient != []
    case Turn => Awake(s.client)
    case Pull => s.client.phase.Yielded?
    case Leave => s.client.phase.Yielded?
    case Interrupt => s.client.phase != Idle
    case Drained => s.client.phase == Draining && (!s.client.inflight || s.client.rejected)
  }

  function WorkerRead(w: Worker, m: ToWorker): Worker
  {
    match m
    case Query(call, window, rows) => Worker(true, Gate(call, window, false), rows)
    case Credit(call) => w.(gate := GateGrant(w.gate, call))
    case Stop(_) => w.(gate := w.gate.(stopped := true))
  }

  function Stops(c: Client, d: Client): seq<ToWorker>
  {
    if d.phase == Draining && c.phase != Draining then [Stop(d.call)] else []
  }

  function Apply(s: State, e: Event): State
    requires Enabled(s, e)
  {
    match e
    case Post(rows, window) =>
      var c := Posted(s.client);
      s.(client := c, toWorker := s.toWorker + [Query(c.call, window, rows)],
         rows := rows, window := window, sent := [], got := [], counted := false, garbled := 0)
    case WorkerReads =>
      s.(worker := WorkerRead(s.worker, s.toWorker[0]), toWorker := s.toWorker[1..])
    case WorkerSends =>
      var w := s.worker;
      s.(worker := w.(todo := w.todo[1..], gate := w.gate.(credits := w.gate.credits - 1)),
         toClient := s.toClient + [Chunk(w.gate.call, w.todo[0])], sent := s.sent + [w.todo[0]])
    case WorkerEnds(ok) =>
      var call := s.worker.gate.call;
      s.(worker := s.worker.(running := false), toClient := s.toClient + [if ok then Done(call) else Error(call)])
    case ClientReads => s.(client := ClientReceive(s.client, s.toClient[0]), toClient := s.toClient[1..])
    case Garble =>
      s.(client := s.client.(failed := true), toClient := s.toClient[1..],
         garbled := if s.toClient[0].Chunk? then s.garbled + 1 else s.garbled)
    case Turn =>
      var c := LoopTurn(s.client);
      s.(client := c, toWorker := s.toWorker + Stops(s.client, c),
         got := if c.phase.Yielded? && c.phase.item.Rows? then s.got + [c.phase.item.rows] else s.got,
         counted := s.counted || c.phase == Yielded(Count))
    case Pull =>
      s.(client := s.client.(phase := Looping),
         toWorker := s.toWorker + if s.client.phase.item.Rows? then [Credit(s.client.call)] else [])
    case Leave =>
      var c := Unwind(s.client, Cut);
      s.(client := c, toWorker := s.toWorker + Stops(s.client, c))
    case Interrupt => s.(client := s.client.(stopped := true))
    case Drained => s.(client := Rest(s.client))
  }

  predicate Init(s: State)
  {
    && s.client.phase == Idle && !s.client.inflight && s.client.inbox == [] && !s.client.rejected
    && !s.worker.running && s.toWorker == [] && s.toClient == []
    && s.worker.gate.call == s.client.call && s.client.outcome == Cut
    && s.rows == [] && s.sent == [] && s.got == [] && !s.counted && s.garbled == 0
  }

  // ------------------------------------------------------------------------- runs

  predicate CanRun(s: State, events: seq<Event>)
    decreases |events|
  {
    events == [] || (Enabled(s, events[0]) && CanRun(Apply(s, events[0]), events[1..]))
  }

  function Run(s: State, events: seq<Event>): State
    requires CanRun(s, events)
    decreases |events|
  {
    if events == [] then s else Run(Apply(s, events[0]), events[1..])
  }

  /** Each query holds its worker until it is idle, as a client's lease does. */
  predicate Held(s: State, e: Event) { e.Post? ==> s.client.phase == Idle }

  predicate HeldRun(s: State, events: seq<Event>)
    requires CanRun(s, events)
    decreases |events|
  {
    events != [] ==> Held(s, events[0]) && HeldRun(Apply(s, events[0]), events[1..])
  }
}
