/**
  * The worker pool's scheduler as a machine: availability, the three wait
  * queues, the write designation, leases and their generations. A grant (the
  * waiter resolved, its lease made) is one step.
  */
module SchedulerModel {
  import opened Basics

  /** A slot's worker; a respawned slot holds another `serial`. */
  datatype Worker = Worker(index: nat, serial: nat)

  datatype Kind = Read | Write | Verdict(free: bool)

  datatype Status = Gated | Queued | Granted(lease: nat) | Aborted | ShutDown

  datatype Call = Call(kind: Kind, status: Status)

  datatype Lease = Lease(
    call: nat, kind: Kind, worker: Worker, gen: nat, borrowed: bool, released: bool, demoted: bool)

  /**
    * The workers and who has them. `leases` is every lease so far, and `holder`
    * the one that holds a leased index: both for the statements.
    */
  datatype Pool = Pool(
    workers: seq<Option<Worker>>,
    available: set<nat>,
    leased: set<nat>,
    generations: map<nat, nat>,
    holder: map<nat, nat>,
    leases: seq<Lease>)

  /** The callers: `calls` is every acquire so far. */
  datatype Desk = Desk(readers: seq<nat>, writers: seq<nat>, verdicts: seq<nat>, calls: seq<Call>)

  datatype State = State(
    pool: Pool,
    desk: Desk,
    current: Option<nat>,
    last: Option<nat>,
    gateOpen: bool,
    stopped: bool,
    drained: bool)

  type Policy = nat -> bool

  datatype Event =
    | Add(worker: Worker)
    | Acquire(kind: Kind, aborted: bool)
    | OpenGate
    | Proceed(call: nat)
    | AbortCall(call: nat)
    | ReleaseLease(lease: nat)
    | DemoteLease(lease: nat)
    | Offer(worker: Worker)
    | TakeOut(index: nat)
    | Shutdown

  // -------------------------------------------------------------- the workers

  function Gen(p: Pool, index: nat): nat { if index in p.generations then p.generations[index] else 0 }

  predicate Present(p: Pool, index: nat) { index < |p.workers| && p.workers[index].Some? }

  predicate Ready(p: Pool, w: Worker) { w.index < |p.workers| && p.workers[w.index] == Some(w) }

  /** A lease that still holds its worker. */
  predicate Live(p: Pool, k: nat)
    requires k < |p.leases|
  {
    var l := p.leases[k];
    !l.borrowed && !l.released && l.gen == Gen(p, l.worker.index)
  }

  function Put(workers: seq<Option<Worker>>, index: nat, w: Option<Worker>): (r: seq<Option<Worker>>)
    ensures |r| == if index < |workers| then |workers| else index + 1
    ensures r[index] == w
    ensures forall i | 0 <= i < |r| && i != index :: r[i] == if i < |workers| then workers[i] else None
  {
    if index < |workers| then workers[index := w]
    else workers + seq(index - |workers|, _ => None) + [w]
  }

  function NewLease(p: Pool, c: nat, kind: Kind, w: Worker, borrowed: bool): Pool
  {
    p.(leases := p.leases + [Lease(c, kind, w, Gen(p, w.index), borrowed, false, false)],
       leased := if borrowed then p.leased else p.leased + {w.index},
       holder := if borrowed then p.holder else p.holder[w.index := |p.leases|])
  }

  function Free(p: Pool, index: nat): Pool { p.(available := p.available + {index}) }

  /** The lowest free index below `n` that may serve. */
  function Lowest(n: nat, free: set<nat>, may: Policy): (r: Option<nat>)
    ensures r.Some? ==> r.value < n && r.value in free && may(r.value)
    ensures forall i | 0 <= i < n && i in free && may(i) :: r.Some? && r.value <= i
  {
    if n == 0 then None
    else
      var r := Lowest(n - 1, free, may);
      if r.Some? then r else if n - 1 in free && may(n - 1) then Some(n - 1) else None
  }

  // -------------------------------------------------------------- the callers

  datatype QueueId = Readers | Writers | Verdicts

  function QueueFor(kind: Kind): QueueId
  {
    match kind case Read => Readers case Write => Writers case Verdict(_) => Verdicts
  }

  function Queue(d: Desk, id: QueueId): seq<nat>
  {
    match id case Readers => d.readers case Writers => d.writers case Verdicts => d.verdicts
  }

  function SetQueue(d: Desk, id: QueueId, q: seq<nat>): (r: Desk)
    ensures r.calls == d.calls && Queue(r, id) == q
    ensures forall other | other != id :: Queue(r, other) == Queue(d, other)
  {
    match id
    case Readers => d.(readers := q)
    case Writers => d.(writers := q)
    case Verdicts => d.(verdicts := q)
  }

  function SetStatus(d: Desk, c: nat, status: Status): Desk
    requires c < |d.calls|
  {
    d.(calls := d.calls[c := d.calls[c].(status := status)])
  }

  function Remove(q: seq<nat>, c: nat): (r: seq<nat>)
    ensures forall x :: x in r <==> x in q && x != c
  {
    if q == [] then [] else if q[0] == c then Remove(q[1..], c) else [q[0]] + Remove(q[1..], c)
  }

  /** A caller out of its queue, with its answer. */
  function Settled(d: Desk, c: nat, status: Status): Desk
    requires c < |d.calls|
  {
    var id := QueueFor(d.calls[c].kind);
    SetStatus(SetQueue(d, id, Remove(Queue(d, id), c)), c, status)
  }

  function Enqueued(d: Desk, c: nat): Desk
    requires c < |d.calls|
  {
    var id := QueueFor(d.calls[c].kind);
    SetStatus(SetQueue(d, id, Queue(d, id) + [c]), c, Queued)
  }

  function RefuseQueued(calls: seq<Call>): (r: seq<Call>)
    ensures |r| == |calls|
    ensures forall i | 0 <= i < |r| ::
              r[i] == if calls[i].status == Queued then calls[i].(status := ShutDown) else calls[i]
  {
    seq(|calls|, i requires 0 <= i < |calls| =>
      if calls[i].status == Queued then calls[i].(status := ShutDown) else calls[i])
  }

  /** The first verdict waiter that a worker outside the pool may serve. */
  function FirstShared(calls: seq<Call>, q: seq<nat>): (r: Option<nat>)
    ensures r.Some? ==> r.value in q && r.value < |calls| && calls[r.value].kind == Verdict(false)
    ensures r == None ==> forall c | c in q && c < |calls| :: calls[c].kind != Verdict(false)
  {
    if q == [] then None
    else if q[0] < |calls| && calls[q[0]].kind == Verdict(false) then Some(q[0])
    else FirstShared(calls, q[1..])
  }

  // ------------------------------------------------------------------ the steps

  /** A caller gets the worker in hand. */
  function Grant(s: State, c: nat, w: Worker, borrowed: bool): State
    requires c < |s.desk.calls|
  {
    s.(desk := Settled(s.desk, c, Granted(|s.pool.leases|)),
       pool := NewLease(s.pool, c, s.desk.calls[c].kind, w, borrowed))
  }

  predicate HeadsFit(d: Desk)
  {
    forall id: QueueId :: Queue(d, id) != [] ==> Queue(d, id)[0] < |d.calls|
  }

  function ServeHead(s: State, id: QueueId, w: Worker): State
    requires HeadsFit(s.desk) && Queue(s.desk, id) != []
  {
    Grant(s, Queue(s.desk, id)[0], w, false)
  }

  predicate MayServeWriter(s: State, policy: Policy, index: nat)
  {
    s.desk.writers != [] && if s.current.Some? then s.current.value == index else policy(index)
  }

  function Designate(s: State, index: nat): State { s.(current := Some(index), last := Some(index)) }

  function Undesignate(s: State, index: nat): State
  {
    if s.current == Some(index) then s.(current := None) else s
  }

  /** A worker coming back from a lease. */
  function HandOver(s: State, policy: Policy, w: Worker): State
    requires HeadsFit(s.desk)
  {
    if s.desk.verdicts != [] then
      ServeHead(if s.desk.writers == [] then Undesignate(s, w.index) else s, Verdicts, w)
    else if MayServeWriter(s, policy, w.index) then ServeHead(Designate(s, w.index), Writers, w)
    else
      var t := Undesignate(s, w.index);
      if s.desk.readers != [] then ServeHead(t, Readers, w) else t.(pool := Free(s.pool, w.index))
  }

  /** A worker joining the pool. */
  function Join(s: State, policy: Policy, w: Worker): State
    requires HeadsFit(s.desk)
  {
    if s.desk.verdicts != [] then ServeHead(s, Verdicts, w)
    else if MayServeWriter(s, policy, w.index) then ServeHead(Designate(s, w.index), Writers, w)
    else if s.desk.readers != [] then ServeHead(s, Readers, w)
    else s.(pool := Free(s.pool, w.index))
  }

  /** Which free worker an acquire takes: for a write the designated one; else the last writer, before the lowest index. */
  function Choice(s: State, policy: Policy, write: bool): (r: Option<nat>)
  {
    if write && s.current.Some? then (if s.current.value in s.pool.available then s.current else None)
    else if s.last.Some? && s.last.value in s.pool.available && (!write || policy(s.last.value)) then s.last
    else Lowest(|s.pool.workers|, s.pool.available, (i: nat) => !write || policy(i))
  }

  function Taken(s: State, index: nat, write: bool): State
  {
    var t := s.(pool := s.pool.(available := s.pool.available - {index}));
    if write && s.current == None then Designate(t, index) else t
  }

  /** The free worker chosen for a caller, granted to it; None when the caller has to wait. */
  function TakeFor(s: State, policy: Policy, c: nat, write: bool): Option<State>
    requires c < |s.desk.calls|
  {
    var found := Choice(s, policy, write);
    if found.Some? && Present(s.pool, found.value)
    then Some(Grant(Taken(s, found.value, write), c, s.pool.workers[found.value].value, false))
    else None
  }

  /** An acquire past the readiness gate. */
  function Proceeding(s: State, policy: Policy, c: nat): State
    requires c < |s.desk.calls|
  {
    if s.stopped then s.(desk := SetStatus(s.desk, c, ShutDown))
    else
      var taken := TakeFor(s, policy, c, s.desk.calls[c].kind.Write?);
      if taken.Some? then taken.value else s.(desk := Enqueued(s.desk, c))
  }

  function Acquiring(s: State, policy: Policy, kind: Kind, aborted: bool): State
  {
    var c := |s.desk.calls|;
    var t := s.(desk := s.desk.(calls := s.desk.calls + [Call(kind, Gated)]));
    if s.stopped then t.(desk := SetStatus(t.desk, c, ShutDown))
    else if aborted then t.(desk := SetStatus(t.desk, c, Aborted))
    else if s.gateOpen then Proceeding(t, policy, c)
    else t
  }

  function Drain(s: State): State { s.(drained := s.drained || (s.stopped && s.pool.leased == {})) }

  function SetLease(p: Pool, k: nat, l: Lease): Pool
    requires k < |p.leases|
  {
    p.(leases := p.leases[k := l])
  }

  function Releasing(s: State, policy: Policy, k: nat): State
    requires k < |s.pool.leases| && HeadsFit(s.desk)
  {
    var l := s.pool.leases[k];
    if l.borrowed || l.released then s
    else
      var p := SetLease(s.pool, k, l.(released := true));
      if !Live(s.pool, k) then Drain(s.(pool := p))
      else Drain(HandOver(s.(pool := p.(leased := p.leased - {l.worker.index})), policy, l.worker))
  }

  function Demoting(s: State, policy: Policy, k: nat): State
    requires k < |s.pool.leases| && HeadsFit(s.desk)
  {
    var l := s.pool.leases[k];
    if !Live(s.pool, k) || s.current != Some(l.worker.index) then s
    else
      var t := s.(current := None, pool := SetLease(s.pool, k, l.(demoted := true)));
      if s.desk.writers == [] then t
      else
        var taken := TakeFor(t, policy, Queue(s.desk, Writers)[0], true);
        if taken.Some? then taken.value else t
  }

  function Offering(s: State, w: Worker): State
  {
    var found := FirstShared(s.desk.calls, s.desk.verdicts);
    if found == None then s else Grant(s, found.value, w, true)
  }

  function PoolWithout(p: Pool, index: nat): Pool
  {
    p.(available := p.available - {index}, leased := p.leased - {index},
       workers := Put(p.workers, index, None),
       generations := p.generations[index := Gen(p, index) + 1])
  }

  function TakingOut(s: State, index: nat): State
  {
    Drain(s.(pool := PoolWithout(s.pool, index),
             current := if s.current == Some(index) then None else s.current,
             last := if s.last == Some(index) then None else s.last))
  }

  function ShuttingDown(s: State): State
  {
    Drain(s.(gateOpen := true, stopped := true, desk := Desk([], [], [], RefuseQueued(s.desk.calls))))
  }

  function Aborting(s: State, c: nat): State
    requires c < |s.desk.calls|
  {
    var status := s.desk.calls[c].status;
    if status == Queued || (status == Gated && !s.gateOpen) then s.(desk := Settled(s.desk, c, Aborted)) else s
  }

  /** `add` only ever fills a fresh or emptied slot. */
  predicate Enabled(s: State, e: Event)
  {
    match e
    case Add(w) => !Present(s.pool, w.index)
    case Proceed(c) => s.gateOpen && c < |s.desk.calls| && s.desk.calls[c].status == Gated
    case AbortCall(c) => c < |s.desk.calls|
    case ReleaseLease(k) => k < |s.pool.leases|
    case DemoteLease(k) => k < |s.pool.leases|
    case Acquire(_, _) => true
    case OpenGate => true
    case Offer(_) => true
    case TakeOut(_) => true
    case Shutdown => true
  }

  function Apply(s: State, policy: Policy, e: Event): State
    requires Enabled(s, e) && HeadsFit(s.desk)
  {
    match e
    case Add(w) => Join(s.(pool := s.pool.(workers := Put(s.pool.workers, w.index, Some(w)))), policy, w)
    case Acquire(kind, aborted) => Acquiring(s, policy, kind, aborted)
    case OpenGate => s.(gateOpen := true)
    case Proceed(c) => Proceeding(s, policy, c)
    case AbortCall(c) => Aborting(s, c)
    case ReleaseLease(k) => Releasing(s, policy, k)
    case DemoteLease(k) => Demoting(s, policy, k)
    case Offer(w) => Offering(s, w)
    case TakeOut(index) => TakingOut(s, index)
    case Shutdown => ShuttingDown(s)
  }
}
