/**
  * What the scheduler promises over whole runs: exclusive leases, one writer,
  * callers settled once and in turn, no worker idle while a caller it could
  * serve waits, and a shutdown that ends with the last lease.
  */
module SchedulerTheorems {
  import opened Basics
  import opened SchedulerModel
  import opened SchedulerInvariant

  function InitState(gateOpen: bool): State
  {
    State(Pool([], {}, {}, map[], map[], []), Desk([], [], [], []), None, None, gateOpen, false, false)
  }

  predicate CanRun(s: State, policy: Policy, events: seq<Event>)
    decreases |events|
  {
    events == [] ||
    (HeadsFit(s.desk) && Enabled(s, events[0]) && CanRun(Apply(s, policy, events[0]), policy, events[1..]))
  }

  function Run(s: State, policy: Policy, events: seq<Event>): State
    requires CanRun(s, policy, events)
    decreases |events|
  {
    if events == [] then s else Run(Apply(s, policy, events[0]), policy, events[1..])
  }

  lemma InitKeeps(gateOpen: bool)
    ensures Good(InitState(gateOpen)) && WritersConserved(InitState(gateOpen), _ => true)
  {
    var s := InitState(gateOpen);
    assert forall id: QueueId :: Queue(s.desk, id) == [];
  }

  // ----------------------------------------------------------- leases are exclusive

  /** One live lease at most on an index, with the worker that is there now, which is not free. */
  lemma LeasesAreExclusive(s: State, j: nat, k: nat)
    requires Inv(s, None) && j < |s.pool.leases| && k < |s.pool.leases|
    requires Live(s.pool, j) && Live(s.pool, k) && s.pool.leases[j].worker.index == s.pool.leases[k].worker.index
    ensures j == k
    ensures Ready(s.pool, s.pool.leases[j].worker)
    ensures s.pool.leases[j].worker.index !in s.pool.available
  {
    assert s.pool.holder[s.pool.leases[j].worker.index] == j;
    assert s.pool.holder[s.pool.leases[k].worker.index] == k;
  }

  /** At most one write lease that was not demoted, on the designated worker, which is leased, never free and never read on. */
  lemma OneWriter(s: State, j: nat, k: nat)
    requires Inv(s, None) && j < |s.pool.leases| && k < |s.pool.leases| && WriteLease(s.pool, j) && WriteLease(s.pool, k)
    ensures j == k && s.current == Some(s.pool.leases[k].worker.index)
    ensures s.current.value in s.pool.leased && s.current.value !in s.pool.available
    ensures forall l | 0 <= l < |s.pool.leases| && Live(s.pool, l) && s.pool.leases[l].kind == Read ::
              s.pool.leases[l].worker.index != s.current.value
  {
    LeasesAreExclusive(s, j, k);
  }

  /**
    * Whoever comes next after a write, with nobody waiting, is served on the
    * connection that wrote, which has seen the commit: a read owes no barrier, and
    * a run of writes stays on one connection.
    */
  lemma NextGoesWhereTheWriteWas(s: State, policy: Policy, k: nat, kind: Kind)
    requires Good(s) && k < |s.pool.leases| && WriteLease(s.pool, k)
    requires s.desk.readers == s.desk.writers == s.desk.verdicts == [] && s.gateOpen && !s.stopped
    requires kind == Write ==> policy(s.pool.leases[k].worker.index)
    ensures var t := Apply(s, policy, ReleaseLease(k));
            && HeadsFit(t.desk)
            && var u := Apply(t, policy, Acquire(kind, false));
               u.pool.leases[|u.pool.leases| - 1].call == |s.desk.calls|
               && u.pool.leases[|u.pool.leases| - 1].worker == s.pool.leases[k].worker
  {
    var w := s.pool.leases[k].worker;
    var t := Apply(s, policy, ReleaseLease(k));
    assert t.last == Some(w.index) && t.current == None && w.index in t.pool.available && Ready(t.pool, w);
    assert t.desk == s.desk && forall id: QueueId :: Queue(t.desk, id) == [];
    var v := t.(desk := t.desk.(calls := t.desk.calls + [Call(kind, Gated)]));
    assert Choice(v, policy, kind.Write?) == t.last;
  }

  /** A lease older than a removal, a borrowed one, and one already released give nothing back. */
  lemma StaleReleaseIsInert(s: State, policy: Policy, k: nat)
    requires Inv(s, None) && HeadsFit(s.desk) && k < |s.pool.leases| && !Live(s.pool, k)
    ensures var t := Apply(s, policy, ReleaseLease(k));
            && t.pool == s.pool.(leases := t.pool.leases)
            && t.desk == s.desk && t.current == s.current && t.last == s.last
            && (forall j | 0 <= j < |s.pool.leases| :: Live(t.pool, j) == Live(s.pool, j))
    ensures var t := Apply(s, policy, DemoteLease(k)); t == s
  {
  }

  /** Once a worker was taken out, no lease granted on its index before is live again. */
  lemma {:induction false} RemovedLeaseStaysStale(s: State, policy: Policy, events: seq<Event>, k: nat)
    requires Inv(s, None) && HeadsFit(s.desk) && CanRun(s, policy, events) && k < |s.pool.leases|
    requires !Live(s.pool, k) && (s.pool.leases[k].borrowed || s.pool.leases[k].gen <= Gen(s.pool, s.pool.leases[k].worker.index))
    ensures var t := Run(s, policy, events); k < |t.pool.leases| && !Live(t.pool, k)
    decreases |events|
  {
    if events != [] {
      StepKeeps(s, policy, events[0]);
      LeasesAge(s, policy, events[0]);
      var t := Apply(s, policy, events[0]);
      assert t.pool.leases[k].gen == s.pool.leases[k].gen;
      RemovedLeaseStaysStale(t, policy, events[1..], k);
    }
  }

  /** A lease keeps what it was granted with, and a generation only grows. */
  predicate Ages(p: Pool, q: Pool)
  {
    && |p.leases| <= |q.leases|
    && (forall k | 0 <= k < |p.leases| ::
          && q.leases[k] == p.leases[k].(released := q.leases[k].released, demoted := q.leases[k].demoted)
          && (p.leases[k].released ==> q.leases[k].released)
          && Gen(p, p.leases[k].worker.index) <= Gen(q, p.leases[k].worker.index))
  }

  lemma LeasesAge(s: State, policy: Policy, e: Event)
    requires HeadsFit(s.desk) && Enabled(s, e)
    ensures Ages(s.pool, Apply(s, policy, e).pool)
  {
    match e
    case Add(w) => AddAges(s, policy, w);
    case Acquire(kind, aborted) => ProceedAges(s, policy, kind);
    case OpenGate =>
    case Proceed(c) => TakeAges(s, policy, c, s.desk.calls[c].kind.Write?);
    case AbortCall(c) =>
    case ReleaseLease(k) => ReleaseAges(s, policy, k);
    case DemoteLease(k) => DemoteAges(s, policy, k);
    case Offer(w) =>
    case TakeOut(index) =>
    case Shutdown =>
  }

  lemma AddAges(s: State, policy: Policy, w: Worker)
    requires HeadsFit(s.desk) && Enabled(s, Add(w))
    ensures Ages(s.pool, Apply(s, policy, Add(w)).pool)
  {
    var u := s.(pool := s.pool.(workers := Put(s.pool.workers, w.index, Some(w))));
    JoinAges(u, policy, w);
    AgesOn(s.pool, u.pool, Join(u, policy, w).pool);
  }

  lemma JoinAges(s: State, policy: Policy, w: Worker)
    requires HeadsFit(s.desk)
    ensures Ages(s.pool, Join(s, policy, w).pool)
  {
    if s.desk.verdicts != [] {
      ServeHeadAges(s, Verdicts, w);
    } else if MayServeWriter(s, policy, w.index) {
      ServeHeadAges(Designate(s, w.index), Writers, w);
    } else if s.desk.readers != [] {
      ServeHeadAges(s, Readers, w);
    }
  }

  lemma ServeHeadAges(s: State, id: QueueId, w: Worker)
    requires HeadsFit(s.desk) && Queue(s.desk, id) != []
    ensures Ages(s.pool, ServeHead(s, id, w).pool)
  {
    GrantAges(s, Queue(s.desk, id)[0], w, false);
  }

  lemma GrantAges(s: State, c: nat, w: Worker, borrowed: bool)
    requires c < |s.desk.calls|
    ensures Ages(s.pool, Grant(s, c, w, borrowed).pool)
  {
  }

  lemma HandOverAges(s: State, policy: Policy, w: Worker)
    requires HeadsFit(s.desk)
    ensures Ages(s.pool, HandOver(s, policy, w).pool)
  {
    if s.desk.verdicts != [] {
      ServeHeadAges(if s.desk.writers == [] then Undesignate(s, w.index) else s, Verdicts, w);
    } else if MayServeWriter(s, policy, w.index) {
      ServeHeadAges(Designate(s, w.index), Writers, w);
    } else if s.desk.readers != [] {
      ServeHeadAges(Undesignate(s, w.index), Readers, w);
    }
  }

  lemma TakeAges(s: State, policy: Policy, c: nat, write: bool)
    requires c < |s.desk.calls|
    ensures TakeFor(s, policy, c, write).Some? ==> Ages(s.pool, TakeFor(s, policy, c, write).value.pool)
  {
  }

  lemma ProceedAges(s: State, policy: Policy, kind: Kind)
    ensures Ages(s.pool, Acquiring(s, policy, kind, true).pool) && Ages(s.pool, Acquiring(s, policy, kind, false).pool)
  {
    var t := s.(desk := s.desk.(calls := s.desk.calls + [Call(kind, Gated)]));
    TakeAges(t, policy, |s.desk.calls|, kind.Write?);
  }

  lemma ReleaseAges(s: State, policy: Policy, k: nat)
    requires HeadsFit(s.desk) && k < |s.pool.leases|
    ensures Ages(s.pool, Releasing(s, policy, k).pool)
  {
    var l := s.pool.leases[k];
    var p := SetLease(s.pool, k, l.(released := true));
    var u := s.(pool := p.(leased := p.leased - {l.worker.index}));
    HandOverAges(u, policy, l.worker);
    AgesOn(s.pool, u.pool, HandOver(u, policy, l.worker).pool);
  }

  lemma AgesOn(p: Pool, q: Pool, r: Pool)
    requires Ages(p, q) && Ages(q, r)
    ensures Ages(p, r)
  {
  }

  lemma DemoteAges(s: State, policy: Policy, k: nat)
    requires HeadsFit(s.desk) && k < |s.pool.leases|
    ensures Ages(s.pool, Demoting(s, policy, k).pool)
  {
    var t := s.(current := None, pool := SetLease(s.pool, k, s.pool.leases[k].(demoted := true)));
    if s.desk.writers != [] { TakeAges(t, policy, Queue(s.desk, Writers)[0], true); }
  }

  // ------------------------------------------------------- nothing waits in vain

  /** No reader and no verdict waits while a worker is free. */
  predicate Conserved(s: State)
  {
    s.desk.readers != [] || s.desk.verdicts != [] ==> s.pool.available == {}
  }

  /** A writer waits for the designated worker, or because no free worker may be designated. */
  predicate WritersConserved(s: State, policy: Policy)
  {
    s.desk.writers != [] ==> s.current.Some? || forall i | i in s.pool.available :: !policy(i)
  }

  /** Shut down: nobody waits, and the returned promise has settled exactly when nothing is leased. */
  predicate StopOk(s: State)
  {
    && (s.stopped ==> s.gateOpen)
    && (s.drained <==> s.stopped && s.pool.leased == {})
  }

  predicate Good(s: State) { Inv(s, None) && HeadsFit(s.desk) && Conserved(s) && StopOk(s) }

  // ------------------------------------------------------- each caller, once, in turn

  predicate Terminal(status: Status) { status.Granted? || status == Aborted || status == ShutDown }

  ghost predicate Before(q: seq<nat>, a: nat, b: nat)
  {
    exists i, j :: 0 <= i < j < |q| && q[i] == a && q[j] == b
  }

  /** A caller's answer is final, and one that waits in a queue leaves it only with an answer. */
  predicate Answers(d: Desk, e: Desk)
  {
    && |d.calls| <= |e.calls|
    && (forall c | 0 <= c < |d.calls| ::
          && e.calls[c].kind == d.calls[c].kind
          && (Terminal(d.calls[c].status) ==> e.calls[c].status == d.calls[c].status)
          && (d.calls[c].status == Queued ==> e.calls[c].status != Gated))
  }

  /**
    * Of two callers in one queue, the later is not served while the earlier still
    * waits; only a verdict that wants a free worker may be passed, when a worker
    * is lent.
    */
  ghost predicate InTurn(d: Desk, e: Desk)
  {
    forall id: QueueId, a: nat, b: nat {:trigger Before(Queue(d, id), a, b)} |
      Before(Queue(d, id), a, b) && a < |d.calls| && b < |e.calls| && d.calls[a].kind != Verdict(true) ::
      || Before(Queue(e, id), a, b)
      || a !in Queue(e, id)
      || (b !in Queue(e, id) && !e.calls[b].status.Granted?)
  }

  lemma RemoveKeepsBefore(q: seq<nat>, c: nat, a: nat, b: nat)
    requires Before(q, a, b) && a != c && b != c
    ensures Before(Remove(q, c), a, b)
  {
    var i, j :| 0 <= i < j < |q| && q[i] == a && q[j] == b;
    var r := Remove(q, c);
    if i > 0 {
      assert q[1..][i - 1] == a && q[1..][j - 1] == b;
      RemoveKeepsBefore(q[1..], c, a, b);
      var rest := Remove(q[1..], c);
      var x, y :| 0 <= x < y < |rest| && rest[x] == a && rest[y] == b;
      if q[0] != c { assert r[x + 1] == a && r[y + 1] == b; }
    } else {
      assert q[1..][j - 1] == b;
      assert b in Remove(q[1..], c);
      var y :| 0 <= y < |Remove(q[1..], c)| && Remove(q[1..], c)[y] == b;
      assert r[0] == a && r[y + 1] == b;
    }
  }

  /** Whoever leaves a queue with a grant has nobody before them but verdicts that want a free worker. */
  ghost predicate First(d: Desk, c: nat)
    requires c < |d.calls|
  {
    forall a: nat | a < |d.calls| && Before(Queue(d, QueueFor(d.calls[c].kind)), a, c) :: d.calls[a].kind == Verdict(true)
  }

  lemma SettledInTurn(d: Desk, c: nat, status: Status)
    requires QueuesOk(d) && CanSettle(d, c) && Terminal(status) && (status.Granted? ==> First(d, c))
    ensures Answers(d, Settled(d, c, status)) && InTurn(d, Settled(d, c, status))
  {
    var e := Settled(d, c, status);
    var own := QueueFor(d.calls[c].kind);
    var rest := SetQueue(d, own, Remove(Queue(d, own), c));
    assert forall id :: Queue(e, id) == Queue(rest, id);
    forall id: QueueId, a: nat, b: nat |
      Before(Queue(d, id), a, b) && a < |d.calls| && b < |e.calls| && d.calls[a].kind != Verdict(true)
      ensures || Before(Queue(e, id), a, b) || a !in Queue(e, id)
              || (b !in Queue(e, id) && !e.calls[b].status.Granted?)
    {
      if id == own {
        OrderWithout(Queue(d, own), c, a, b);
        if b == c { assert !status.Granted?; }
      }
    }
  }

  lemma OrderWithout(q: seq<nat>, c: nat, a: nat, b: nat)
    requires Before(q, a, b)
    ensures Before(Remove(q, c), a, b) || a == c || b == c
    ensures c !in Remove(q, c)
  {
    if a != c && b != c { RemoveKeepsBefore(q, c, a, b); }
  }

  lemma EnqueuedInTurn(d: Desk, c: nat)
    requires QueuesOk(d) && c < |d.calls| && d.calls[c].status == Gated
    ensures Answers(d, Enqueued(d, c)) && InTurn(d, Enqueued(d, c))
  {
    var e := Enqueued(d, c);
    forall id: QueueId, a: nat, b: nat | Before(Queue(d, id), a, b)
      ensures Before(Queue(e, id), a, b)
    {
      var q := Queue(d, id);
      var i, j :| 0 <= i < j < |q| && q[i] == a && q[j] == b;
      assert Queue(e, id)[i] == a && Queue(e, id)[j] == b;
    }
  }

  lemma HeadIsFirst(d: Desk, id: QueueId)
    requires QueuesOk(d) && Queue(d, id) != []
    ensures Queue(d, id)[0] < |d.calls| && First(d, Queue(d, id)[0])
    ensures CanSettle(d, Queue(d, id)[0]) && QueueFor(d.calls[Queue(d, id)[0]].kind) == id
  {
    HeadsAreCallers(d);
    assert NoDuplicate(Queue(d, id));
  }

  lemma {:induction false} SharedIsFirst(calls: seq<Call>, q: seq<nat>, a: nat)
    requires FirstShared(calls, q).Some? && Before(q, a, FirstShared(calls, q).value) && NoDuplicate(q)
    requires forall c | c in q :: c < |calls| && calls[c].kind.Verdict?
    ensures a < |calls| && calls[a].kind == Verdict(true)
  {
    var c := FirstShared(calls, q).value;
    var i, j :| 0 <= i < j < |q| && q[i] == a && q[j] == c;
    assert q[0] != q[j] || j == 0;
    if q[0] < |calls| && calls[q[0]].kind == Verdict(false) {
      assert false;
    } else if i == 0 {
      assert a in q && calls[a].kind.Verdict?;
      assert a == q[0];
    } else {
      assert q[1..][i - 1] == a && q[1..][j - 1] == c;
      assert forall x | x in q[1..] :: x in q;
      SharedIsFirst(calls, q[1..], a);
    }
  }

  lemma GrantInTurn(s: State, c: nat, w: Worker, borrowed: bool)
    requires QueuesOk(s.desk) && CanSettle(s.desk, c) && First(s.desk, c)
    ensures Answers(s.desk, Grant(s, c, w, borrowed).desk) && InTurn(s.desk, Grant(s, c, w, borrowed).desk)
  {
    SettledInTurn(s.desk, c, Granted(|s.pool.leases|));
  }

  lemma ServeHeadInTurn(s: State, id: QueueId, w: Worker)
    requires QueuesOk(s.desk) && HeadsFit(s.desk) && Queue(s.desk, id) != []
    ensures var t := ServeHead(s, id, w); Answers(s.desk, t.desk) && InTurn(s.desk, t.desk)
  {
    HeadIsFirst(s.desk, id);
    GrantInTurn(s, Queue(s.desk, id)[0], w, false);
  }

  lemma SameDeskInTurn(d: Desk)
    ensures Answers(d, d) && InTurn(d, d)
  {
  }

  lemma HandOverInTurn(s: State, policy: Policy, w: Worker)
    requires QueuesOk(s.desk) && HeadsFit(s.desk)
    ensures var t := HandOver(s, policy, w); Answers(s.desk, t.desk) && InTurn(s.desk, t.desk)
    ensures var t := Join(s, policy, w); Answers(s.desk, t.desk) && InTurn(s.desk, t.desk)
  {
    SameDeskInTurn(s.desk);
    forall id: QueueId, u: State | Queue(s.desk, id) != [] && u.desk == s.desk && u.pool == s.pool
      ensures var t := ServeHead(u, id, w); Answers(s.desk, t.desk) && InTurn(s.desk, t.desk)
    {
      ServeHeadInTurn(u, id, w);
    }
  }

  /** A caller that was waiting for the gate, or arrives now, comes after everyone in its queue. */
  lemma GatedIsFirst(d: Desk, c: nat)
    requires QueuesOk(d) && c < |d.calls| && d.calls[c].status == Gated
    ensures First(d, c)
  {
    assert c !in Queue(d, QueueFor(d.calls[c].kind));
  }

  lemma ProceedingInTurn(s: State, policy: Policy, c: nat)
    requires Inv(s, None) && c < |s.desk.calls| && s.desk.calls[c].status == Gated
    ensures var t := Proceeding(s, policy, c); Answers(s.desk, t.desk) && InTurn(s.desk, t.desk)
  {
    GatedIsFirst(s.desk, c);
    if s.stopped {
      RefuseKeeps(s, c, ShutDown);
      SettledInTurn(s.desk, c, ShutDown);
    } else {
      var write := s.desk.calls[c].kind.Write?;
      ChoiceIsFree(s, policy, write);
      var found := Choice(s, policy, write);
      if found.Some? {
        GrantInTurn(Taken(s, found.value, write), c, s.pool.workers[found.value].value, false);
      } else {
        EnqueuedInTurn(s.desk, c);
      }
    }
  }

  lemma ArrivalInTurn(d: Desk, kind: Kind, e: Desk)
    requires var more := d.(calls := d.calls + [Call(kind, Gated)]); Answers(more, e) && InTurn(more, e)
    ensures Answers(d, e) && InTurn(d, e)
  {
    var more := d.(calls := d.calls + [Call(kind, Gated)]);
    assert forall id: QueueId :: Queue(more, id) == Queue(d, id);
    assert forall c | 0 <= c < |d.calls| :: more.calls[c] == d.calls[c];
  }

  lemma AcquiringInTurn(s: State, policy: Policy, kind: Kind, aborted: bool)
    requires Inv(s, None)
    ensures var t := Acquiring(s, policy, kind, aborted); Answers(s.desk, t.desk) && InTurn(s.desk, t.desk)
  {
    var c := |s.desk.calls|;
    var t := s.(desk := s.desk.(calls := s.desk.calls + [Call(kind, Gated)]));
    assert forall id: QueueId :: Queue(t.desk, id) == Queue(s.desk, id);
    assert Inv(t, None);
    SameDeskInTurn(t.desk);
    if s.stopped || aborted {
      var why := if s.stopped then ShutDown else Aborted;
      RefuseKeeps(t, c, why);
      SettledInTurn(t.desk, c, why);
    } else if s.gateOpen {
      ProceedingInTurn(t, policy, c);
    }
    ArrivalInTurn(s.desk, kind, Acquiring(s, policy, kind, aborted).desk);
  }

  lemma DemotingInTurn(s: State, policy: Policy, k: nat)
    requires Inv(s, None) && HeadsFit(s.desk) && k < |s.pool.leases|
    ensures var t := Demoting(s, policy, k); Answers(s.desk, t.desk) && InTurn(s.desk, t.desk)
  {
    SameDeskInTurn(s.desk);
    var l := s.pool.leases[k];
    var t := s.(current := None, pool := SetLease(s.pool, k, l.(demoted := true)));
    if s.desk.writers != [] {
      var c := Queue(s.desk, Writers)[0];
      HeadIsFirst(s.desk, Writers);
      var found := Choice(t, policy, true);
      if found.Some? && Present(t.pool, found.value) {
        GrantInTurn(Taken(t, found.value, true), c, t.pool.workers[found.value].value, false);
      }
    }
  }

  lemma OfferingInTurn(s: State, w: Worker)
    requires QueuesOk(s.desk)
    ensures var t := Offering(s, w); Answers(s.desk, t.desk) && InTurn(s.desk, t.desk)
  {
    SameDeskInTurn(s.desk);
    var found := FirstShared(s.desk.calls, s.desk.verdicts);
    if found.Some? {
      assert found.value in Queue(s.desk, Verdicts);
      assert NoDuplicate(Queue(s.desk, Verdicts));
      assert forall c | c in s.desk.verdicts :: c in Queue(s.desk, Verdicts);
      forall a: nat | a < |s.desk.calls| && Before(Queue(s.desk, Verdicts), a, found.value)
        ensures s.desk.calls[a].kind == Verdict(true)
      {
        SharedIsFirst(s.desk.calls, s.desk.verdicts, a);
      }
      GrantInTurn(s, found.value, w, true);
    }
  }

  lemma ShuttingDownInTurn(s: State)
    requires QueuesOk(s.desk)
    ensures var t := ShuttingDown(s); Answers(s.desk, t.desk) && InTurn(s.desk, t.desk)
  {
    var t := ShuttingDown(s);
    assert forall id: QueueId :: Queue(t.desk, id) == [];
  }

  lemma StepInTurn(s: State, policy: Policy, e: Event)
    requires Inv(s, None) && HeadsFit(s.desk) && Enabled(s, e)
    ensures var t := Apply(s, policy, e); Answers(s.desk, t.desk) && InTurn(s.desk, t.desk)
  {
    SameDeskInTurn(s.desk);
    match e
    case Add(w) => HandOverInTurn(s.(pool := s.pool.(workers := Put(s.pool.workers, w.index, Some(w)))), policy, w);
    case Acquire(kind, aborted) => AcquiringInTurn(s, policy, kind, aborted);
    case OpenGate =>
    case Proceed(c) => ProceedingInTurn(s, policy, c);
    case AbortCall(c) => if CanSettle(s.desk, c) { SettledInTurn(s.desk, c, Aborted); }
    case ReleaseLease(k) =>
      var l := s.pool.leases[k];
      var p := SetLease(s.pool, k, l.(released := true));
      HandOverInTurn(s.(pool := p.(leased := p.leased - {l.worker.index})), policy, l.worker);
    case DemoteLease(k) => DemotingInTurn(s, policy, k);
    case Offer(w) => OfferingInTurn(s, w);
    case TakeOut(index) =>
    case Shutdown => ShuttingDownInTurn(s);
  }

  // ---------------------------------------------------------------- conservation

  lemma RemoveFromEmpty(d: Desk, c: nat, status: Status)
    requires c < |d.calls|
    ensures forall id: QueueId | Queue(d, id) == [] :: Queue(Settled(d, c, status), id) == []
  {
    var own := QueueFor(d.calls[c].kind);
    var rest := SetQueue(d, own, Remove(Queue(d, own), c));
    assert forall id :: Queue(Settled(d, c, status), id) == Queue(rest, id);
  }

  /** Both halves, or with `w` false the readers' alone. */
  predicate AllConserved(s: State, policy: Policy, w: bool) { Conserved(s) && (w ==> WritersConserved(s, policy)) }

  /** Answering a caller, with no worker becoming free and no designation given up, keeps both. */
  lemma SettledConserves(s: State, t: State, policy: Policy, c: nat, status: Status, both: bool)
    requires AllConserved(s, policy, both) && c < |s.desk.calls| && t.desk == Settled(s.desk, c, status)
    requires t.pool.available <= s.pool.available && (s.current.Some? ==> t.current.Some?)
    ensures AllConserved(t, policy, both)
  {
    RemoveFromEmpty(s.desk, c, status);
    assert forall id: QueueId | Queue(s.desk, id) == [] :: Queue(t.desk, id) == [];
    assert s.desk.readers == Queue(s.desk, Readers) && t.desk.readers == Queue(t.desk, Readers);
    assert s.desk.writers == Queue(s.desk, Writers) && t.desk.writers == Queue(t.desk, Writers);
    assert s.desk.verdicts == Queue(s.desk, Verdicts) && t.desk.verdicts == Queue(t.desk, Verdicts);
  }

  lemma HandOverConserves(s: State, policy: Policy, w: Worker, both: bool)
    requires AllConserved(s, policy, both) && HeadsFit(s.desk)
    ensures AllConserved(HandOver(s, policy, w), policy, both)
  {
    var t := HandOver(s, policy, w);
    if s.desk.verdicts != [] {
      if s.desk.writers != [] {
        SettledConserves(s, t, policy, Queue(s.desk, Verdicts)[0], Granted(|s.pool.leases|), both);
      } else {
        RemoveFromEmpty(s.desk, Queue(s.desk, Verdicts)[0], Granted(|s.pool.leases|));
        assert Queue(t.desk, Writers) == Queue(s.desk, Writers) == [];
      }
    } else if MayServeWriter(s, policy, w.index) {
      SettledConserves(s, t, policy, Queue(s.desk, Writers)[0], Granted(|s.pool.leases|), both);
    } else if s.desk.readers != [] {
      RemoveFromEmpty(s.desk, Queue(s.desk, Readers)[0], Granted(|s.pool.leases|));
      assert Queue(s.desk, Writers) == [] ==> Queue(t.desk, Writers) == [];
      assert Queue(t.desk, Verdicts) == [];
    }
  }

  lemma JoinConserves(s: State, policy: Policy, w: Worker, both: bool)
    requires AllConserved(s, policy, both) && HeadsFit(s.desk)
    ensures AllConserved(Join(s, policy, w), policy, both)
  {
    var t := Join(s, policy, w);
    if s.desk.verdicts != [] {
      SettledConserves(s, t, policy, Queue(s.desk, Verdicts)[0], Granted(|s.pool.leases|), both);
    } else if MayServeWriter(s, policy, w.index) {
      SettledConserves(s, t, policy, Queue(s.desk, Writers)[0], Granted(|s.pool.leases|), both);
    } else if s.desk.readers != [] {
      SettledConserves(s, t, policy, Queue(s.desk, Readers)[0], Granted(|s.pool.leases|), both);
    }
  }

  lemma ProceedingConserves(s: State, policy: Policy, c: nat, both: bool)
    requires Inv(s, None) && AllConserved(s, policy, both) && c < |s.desk.calls| && s.desk.calls[c].status == Gated
    ensures AllConserved(Proceeding(s, policy, c), policy, both)
  {
    var t := Proceeding(s, policy, c);
    if !s.stopped {
      var write := s.desk.calls[c].kind.Write?;
      ChoiceIsFree(s, policy, write);
      if Choice(s, policy, write).Some? {
        SettledConserves(s, t, policy, c, Granted(|s.pool.leases|), both);
      }
    }
  }

  lemma DemotingConserves(s: State, policy: Policy, k: nat, both: bool)
    requires Inv(s, None) && AllConserved(s, policy, both) && HeadsFit(s.desk) && k < |s.pool.leases|
    ensures AllConserved(Demoting(s, policy, k), policy, both)
  {
    var l := s.pool.leases[k];
    if Live(s.pool, k) && s.current == Some(l.worker.index) && s.desk.writers != [] {
      DemotedKeeps(s, k);
      var t := s.(current := None, pool := SetLease(s.pool, k, l.(demoted := true)));
      ChoiceIsFree(t, policy, true);
      var c := Queue(s.desk, Writers)[0];
      var found := Choice(t, policy, true);
      if found.Some? {
        var u := Taken(t, found.value, true);
        assert AllConserved(u, policy, both);
        SettledConserves(u, Demoting(s, policy, k), policy, c, Granted(|s.pool.leases|), both);
      }
    }
  }

  lemma OfferingConserves(s: State, policy: Policy, w: Worker, both: bool)
    requires AllConserved(s, policy, both)
    ensures AllConserved(Offering(s, w), policy, both)
  {
    var found := FirstShared(s.desk.calls, s.desk.verdicts);
    if found.Some? { SettledConserves(s, Offering(s, w), policy, found.value, Granted(|s.pool.leases|), both); }
  }

  /**
    * Taking a worker out serves no queue: writers are left waiting beside a free
    * worker they may have exactly when the one taken out was the designated one,
    * writers were queued, and some other free worker may be designated.
    */
  predicate Strands(s: State, policy: Policy, index: nat)
  {
    s.current == Some(index) && s.desk.writers != [] && exists i :: i in s.pool.available && policy(i)
  }

  lemma TakeOutConservesIff(s: State, policy: Policy, index: nat)
    requires Inv(s, None) && AllConserved(s, policy, true)
    ensures Conserved(TakingOut(s, index))
    ensures WritersConserved(TakingOut(s, index), policy) <==> !Strands(s, policy, index)
  {
    if s.current == Some(index) {
      assert index !in s.pool.available;
      assert s.pool.available - {index} == s.pool.available;
    }
  }

  lemma AcquiringConserves(s: State, policy: Policy, kind: Kind, aborted: bool, both: bool)
    requires Inv(s, None) && AllConserved(s, policy, both)
    ensures AllConserved(Acquiring(s, policy, kind, aborted), policy, both)
  {
    var t := s.(desk := s.desk.(calls := s.desk.calls + [Call(kind, Gated)]));
    assert forall id: QueueId :: Queue(t.desk, id) == Queue(s.desk, id);
    assert Inv(t, None);
    if !s.stopped && !aborted && s.gateOpen { ProceedingConserves(t, policy, |s.desk.calls|, both); }
  }

  lemma ReleasingConserves(s: State, policy: Policy, k: nat, both: bool)
    requires AllConserved(s, policy, both) && HeadsFit(s.desk) && k < |s.pool.leases|
    ensures AllConserved(Releasing(s, policy, k), policy, both)
  {
    var l := s.pool.leases[k];
    var p := SetLease(s.pool, k, l.(released := true));
    HandOverConserves(s.(pool := p.(leased := p.leased - {l.worker.index})), policy, l.worker, both);
  }

  lemma StepConserves(s: State, policy: Policy, e: Event, both: bool)
    requires Inv(s, None) && AllConserved(s, policy, both) && HeadsFit(s.desk) && Enabled(s, e)
    requires e.TakeOut? && both ==> !Strands(s, policy, e.index)
    ensures AllConserved(Apply(s, policy, e), policy, both)
  {
    match e
    case Add(w) => JoinConserves(s.(pool := s.pool.(workers := Put(s.pool.workers, w.index, Some(w)))), policy, w, both);
    case Acquire(kind, aborted) => AcquiringConserves(s, policy, kind, aborted, both);
    case OpenGate =>
    case Proceed(c) => ProceedingConserves(s, policy, c, both);
    case AbortCall(c) => if CanSettle(s.desk, c) { SettledConserves(s, s.(desk := Settled(s.desk, c, Aborted)), policy, c, Aborted, both); }
    case ReleaseLease(k) => ReleasingConserves(s, policy, k, both);
    case DemoteLease(k) => DemotingConserves(s, policy, k, both);
    case Offer(w) => OfferingConserves(s, policy, w, both);
    case TakeOut(index) => if both { TakeOutConservesIff(s, policy, index); }
    case Shutdown =>
  }

  // -------------------------------------------------------------------- shutdown

  lemma StepKeepsStop(s: State, policy: Policy, e: Event)
    requires Inv(s, None) && HeadsFit(s.desk) && Enabled(s, e) && StopOk(s)
    ensures StopOk(Apply(s, policy, e))
    ensures s.stopped ==> Apply(s, policy, e).stopped && |Apply(s, policy, e).pool.leases| == |s.pool.leases|
    ensures s.stopped ==> Apply(s, policy, e).pool.leased <= s.pool.leased
  {
    if e.Proceed? && !s.stopped { ChoiceIsFree(s, policy, s.desk.calls[e.call].kind.Write?); }
  }

  // --------------------------------------------------------------- whole runs

  /** No removal in the run strands a queued writer. */
  predicate NeverStrands(s: State, policy: Policy, events: seq<Event>)
    requires CanRun(s, policy, events)
    decreases |events|
  {
    events != [] ==>
      && (events[0].TakeOut? ==> !Strands(s, policy, events[0].index))
      && NeverStrands(Apply(s, policy, events[0]), policy, events[1..])
  }

  lemma StepKeepsGood(s: State, policy: Policy, e: Event)
    requires Good(s) && Enabled(s, e)
    ensures Good(Apply(s, policy, e))
  {
    StepKeeps(s, policy, e);
    StepKeepsStop(s, policy, e);
    StepConserves(s, policy, e, false);
  }

  lemma {:induction false} RunKeeps(s: State, policy: Policy, events: seq<Event>)
    requires Good(s) && CanRun(s, policy, events)
    ensures Good(Run(s, policy, events))
    ensures WritersConserved(s, policy) && NeverStrands(s, policy, events) ==> WritersConserved(Run(s, policy, events), policy)
    ensures s.stopped ==> Run(s, policy, events).stopped && |Run(s, policy, events).pool.leases| == |s.pool.leases|
    decreases |events|
  {
    if events != [] {
      var e, t := events[0], Apply(s, policy, events[0]);
      StepKeeps(s, policy, e);
      StepKeepsStop(s, policy, e);
      StepConserves(s, policy, e, false);
      if WritersConserved(s, policy) && NeverStrands(s, policy, events) { StepConserves(s, policy, e, true); }
      RunKeeps(t, policy, events[1..]);
    }
  }

  /** Every acquire settles once: its lease, or the reason it got none, never changes. */
  lemma {:induction false} SettledOnce(s: State, policy: Policy, events: seq<Event>)
    requires Good(s) && CanRun(s, policy, events)
    ensures Answers(s.desk, Run(s, policy, events).desk)
    decreases |events|
  {
    if events != [] {
      var t := Apply(s, policy, events[0]);
      StepKeeps(s, policy, events[0]);
      StepInTurn(s, policy, events[0]);
      StepKeepsStop(s, policy, events[0]);
      StepConserves(s, policy, events[0], false);
      SettledOnce(t, policy, events[1..]);
    } else {
      SameDeskInTurn(s.desk);
    }
  }

  /**
    * While a caller waits, nobody who joined its queue later is granted; only a
    * verdict that wants a free worker may be passed, when a worker is lent.
    */
  lemma {:induction false} NoOvertaking(s: State, policy: Policy, events: seq<Event>, id: QueueId, a: nat, b: nat)
    requires Good(s) && CanRun(s, policy, events) && a < |s.desk.calls| && b < |s.desk.calls|
    requires s.desk.calls[a].kind != Verdict(true)
    requires Before(Queue(s.desk, id), a, b) || Terminal(s.desk.calls[a].status)
             || s.desk.calls[b].status == Aborted || s.desk.calls[b].status == ShutDown
    ensures var calls := Run(s, policy, events).desk.calls;
            a < |calls| && b < |calls| && (calls[b].status.Granted? ==> Terminal(calls[a].status))
    decreases |events|
  {
    if Before(Queue(s.desk, id), a, b) {
      assert a in Queue(s.desk, id) && b in Queue(s.desk, id);
    }
    if events != [] {
      var t := Apply(s, policy, events[0]);
      StepKeeps(s, policy, events[0]);
      StepInTurn(s, policy, events[0]);
      StepKeepsStop(s, policy, events[0]);
      StepConserves(s, policy, events[0], false);
      NoOvertaking(t, policy, events[1..], id, a, b);
    }
  }

  /** An acquire that never waited overtakes nobody: its own queue is empty. */
  lemma ImmediateGrantPassesNobody(s: State, policy: Policy, c: nat)
    requires Good(s) && Enabled(s, Proceed(c)) && Apply(s, policy, Proceed(c)).desk.calls[c].status.Granted?
    requires s.desk.calls[c].kind.Write? ==> WritersConserved(s, policy)
    ensures Queue(s.desk, QueueFor(s.desk.calls[c].kind)) == []
  {
    ChoiceIsFree(s, policy, s.desk.calls[c].kind.Write?);
  }

  ghost predicate Reachable(policy: Policy, s: State)
  {
    exists events :: CanRun(InitState(true), policy, events) && Run(InitState(true), policy, events) == s
  }

  lemma {:induction false} OneMore(s: State, policy: Policy, events: seq<Event>, e: Event)
    requires CanRun(s, policy, events) && HeadsFit(Run(s, policy, events).desk) && Enabled(Run(s, policy, events), e)
    ensures CanRun(s, policy, events + [e])
    ensures Run(s, policy, events + [e]) == Apply(Run(s, policy, events), policy, e)
    decreases |events|
  {
    if events == [] {
      assert CanRun(Apply(s, policy, e), policy, []);
      assert [e][1..] == [];
    } else {
      assert (events + [e])[1..] == events[1..] + [e];
      OneMore(Apply(s, policy, events[0]), policy, events[1..], e);
    }
  }

  lemma Onward(policy: Policy, s: State, e: Event)
    requires Reachable(policy, s) && Inv(s, None) && HeadsFit(s.desk) && Enabled(s, e)
    ensures var t := Apply(s, policy, e); Reachable(policy, t) && Inv(t, None) && HeadsFit(t.desk)
  {
    var events :| CanRun(InitState(true), policy, events) && Run(InitState(true), policy, events) == s;
    OneMore(InitState(true), policy, events, e);
    StepKeeps(s, policy, e);
  }

  function Anyone(): Policy { _ => true }

  function WorkerAt(index: nat): Worker { Worker(index, 0) }

  function OneWorker(): State
  {
    InitState(true).(pool := Pool([Some(WorkerAt(0))], {0}, {}, map[], map[], []))
  }

  function TwoWorkers(): State
  {
    InitState(true).(pool := Pool([Some(WorkerAt(0)), Some(WorkerAt(1))], {0, 1}, {}, map[], map[], []))
  }

  /** A write on the first worker, and nothing more. */
  function OneWrite(): State
  {
    State(Pool([Some(WorkerAt(0)), Some(WorkerAt(1))], {1}, {0}, map[], map[0 := 0],
               [Lease(0, Write, WorkerAt(0), 0, false, false, false)]),
          Desk([], [], [], [Call(Write, Granted(0))]), Some(0), Some(0), true, false, false)
  }

  /** A second write behind it. */
  function TwoWrites(): State
  {
    OneWrite().(desk := Desk([], [1], [], [Call(Write, Granted(0)), Call(Write, Queued)]))
  }

  /** The first worker is gone. */
  function Stranded(): State
  {
    TwoWrites().(pool := Pool([None, Some(WorkerAt(1))], {1}, {}, map[0 := 1], map[0 := 0], OneWrite().pool.leases),
                 current := None, last := None)
  }

  lemma WorkersJoin()
    ensures Apply(InitState(true), Anyone(), Add(WorkerAt(0))) == OneWorker()
    ensures HeadsFit(OneWorker().desk) && Apply(OneWorker(), Anyone(), Add(WorkerAt(1))) == TwoWorkers()
  {
    assert Put([], 0, Some(WorkerAt(0))) == [Some(WorkerAt(0))];
    assert Put(OneWorker().pool.workers, 1, Some(WorkerAt(1))) == TwoWorkers().pool.workers;
    assert {} + {0} == {0};
  }

  lemma FirstWrite()
    ensures HeadsFit(TwoWorkers().desk) && Apply(TwoWorkers(), Anyone(), Acquire(Write, false)) == OneWrite()
  {
    var s := TwoWorkers();
    var t := s.(desk := s.desk.(calls := [Call(Write, Gated)]));
    assert s.desk.calls + [Call(Write, Gated)] == t.desk.calls;
    assert 0 in t.pool.available;
    assert Choice(t, Anyone(), true) == Some(0);
    assert {0, 1} - {0} == {1};
  }

  lemma SecondWrite()
    ensures HeadsFit(OneWrite().desk) && Apply(OneWrite(), Anyone(), Acquire(Write, false)) == TwoWrites()
  {
    var s := OneWrite();
    var t := s.(desk := s.desk.(calls := [Call(Write, Granted(0)), Call(Write, Gated)]));
    assert s.desk.calls + [Call(Write, Gated)] == t.desk.calls;
    assert Choice(t, Anyone(), true) == None;
    assert SetStatus(SetQueue(t.desk, Writers, [] + [1]), 1, Queued) == TwoWrites().desk;
  }

  lemma Removal()
    ensures HeadsFit(TwoWrites().desk) && Apply(TwoWrites(), Anyone(), TakeOut(0)) == Stranded()
  {
    assert Put(TwoWrites().pool.workers, 0, None) == Stranded().pool.workers;
    assert {1} - {0} == {1} && {0} - {0} == {};
  }

  /**
    * A writer stranded, and then overtaken: a write on the first worker, a second
    * queued, and the first worker is taken out. The queued write waits beside a
    * free worker, which the next write gets.
    */
  lemma StrandedWriter()
    ensures Reachable(Anyone(), Stranded()) && Stranded().desk.writers == [1] && Stranded().pool.available == {1}
    ensures var u := Apply(Stranded(), Anyone(), Acquire(Write, false));
            u.desk.writers == [1] && u.desk.calls[2].status.Granted?
  {
    var policy := Anyone();
    var s := InitState(true);
    InitKeeps(true);
    assert CanRun(s, policy, []) && Run(s, policy, []) == s;
    WorkersJoin();
    Onward(policy, s, Add(WorkerAt(0)));
    Onward(policy, OneWorker(), Add(WorkerAt(1)));
    FirstWrite();
    Onward(policy, TwoWorkers(), Acquire(Write, false));
    SecondWrite();
    Onward(policy, OneWrite(), Acquire(Write, false));
    Removal();
    Onward(policy, TwoWrites(), TakeOut(0));
    Overtaken();
  }

  lemma Overtaken()
    ensures HeadsFit(Stranded().desk)
    ensures var u := Apply(Stranded(), Anyone(), Acquire(Write, false));
            u.desk.writers == [1] && u.desk.calls[2].status.Granted?
  {
    var s := Stranded();
    var t := s.(desk := s.desk.(calls := s.desk.calls + [Call(Write, Gated)]));
    assert 1 in t.pool.available;
    assert Choice(t, Anyone(), true) == Some(1);
    assert Remove([1], 2) == [1];
  }
}
