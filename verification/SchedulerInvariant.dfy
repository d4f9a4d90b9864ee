/** What every step of the scheduler keeps. */
module SchedulerInvariant {
  import opened Basics
  import opened SchedulerModel

  /** Each present worker is free, leased, or `loose`: in the hands of a step. */
  predicate SlotsOk(p: Pool, loose: Option<nat>)
  {
    && (forall i | 0 <= i < |p.workers| && p.workers[i].Some? ::
          p.workers[i].value.index == i && (i in p.available || i in p.leased || loose == Some(i)))
    && (forall i | i in p.available :: Present(p, i) && i !in p.leased && loose != Some(i))
    && (forall i | i in p.leased :: Present(p, i) && loose != Some(i))
    && (loose.Some? ==> Present(p, loose.value))
  }

  /** A leased index is held by one live lease, and every live lease holds its index. */
  predicate LeasesOk(p: Pool)
  {
    && (forall i | i in p.leased ::
          && i in p.holder && p.holder[i] < |p.leases| && Live(p, p.holder[i])
          && Ready(p, p.leases[p.holder[i]].worker) && p.leases[p.holder[i]].worker.index == i)
    && (forall k | 0 <= k < |p.leases| && Live(p, k) ::
          && p.leases[k].worker.index in p.leased && p.leases[k].worker.index in p.holder
          && p.holder[p.leases[k].worker.index] == k)
    && (forall k | 0 <= k < |p.leases| && !p.leases[k].borrowed :: p.leases[k].gen <= Gen(p, p.leases[k].worker.index))
  }

  /** A queue holds, once each, exactly the waiting callers of its kind. */
  predicate QueuesOk(d: Desk)
  {
    && (forall id: QueueId :: NoDuplicate(Queue(d, id)))
    && (forall id: QueueId, c {:trigger c in Queue(d, id)} | c in Queue(d, id) ::
          c < |d.calls| && d.calls[c].status == Queued && QueueFor(d.calls[c].kind) == id)
    && (forall c | 0 <= c < |d.calls| && d.calls[c].status == Queued :: c in Queue(d, QueueFor(d.calls[c].kind)))
  }

  /** Granted callers and leases are one for one. */
  predicate GrantsOk(calls: seq<Call>, leases: seq<Lease>)
  {
    && (forall k | 0 <= k < |leases| ::
          leases[k].call < |calls| && calls[leases[k].call] == Call(leases[k].kind, Granted(k)))
    && (forall c | 0 <= c < |calls| && calls[c].status.Granted? ::
          calls[c].status.lease < |leases| && leases[calls[c].status.lease].call == c)
  }

  predicate WriteLease(p: Pool, k: nat)
    requires k < |p.leases|
  {
    Live(p, k) && p.leases[k].kind == Write && !p.leases[k].demoted
  }

  /** The designated worker is in use, and not by a reader; a write not demoted is on it. */
  predicate DesignationOk(s: State, loose: Option<nat>)
  {
    && (s.current.Some? ==> s.current.value in s.pool.leased || loose == s.current)
    && (forall k | 0 <= k < |s.pool.leases| && Live(s.pool, k) && s.pool.leases[k].kind == Read ::
          s.current != Some(s.pool.leases[k].worker.index))
    && (forall k | 0 <= k < |s.pool.leases| && WriteLease(s.pool, k) ::
          s.current == Some(s.pool.leases[k].worker.index))
    && (s.last.Some? ==> Present(s.pool, s.last.value))
    && (s.current.Some? ==> s.last == s.current)
  }

  predicate Inv(s: State, loose: Option<nat>)
  {
    && SlotsOk(s.pool, loose) && LeasesOk(s.pool) && QueuesOk(s.desk) && GrantsOk(s.desk.calls, s.pool.leases)
    && DesignationOk(s, loose)
    && (s.stopped ==> s.desk.readers == [] && s.desk.writers == [] && s.desk.verdicts == [])
  }

  predicate CanSettle(d: Desk, c: nat)
  {
    c < |d.calls| && (d.calls[c].status == Gated || d.calls[c].status == Queued)
  }

  // -------------------------------------------------- the parts of a step keep it

  lemma RemoveKeepsOrder(q: seq<nat>, c: nat)
    requires NoDuplicate(q)
    ensures NoDuplicate(Remove(q, c))
    ensures c !in q ==> Remove(q, c) == q
    ensures q != [] && q[0] == c ==> Remove(q, c) == q[1..]
  {
    if q != [] {
      RemoveKeepsOrder(q[1..], c);
      if q[0] != c {
        var rest := Remove(q[1..], c);
        assert q[0] !in rest;
        assert Remove(q, c) == [q[0]] + rest;
      }
    }
  }

  lemma SettledKeepsQueues(d: Desk, c: nat, status: Status)
    requires QueuesOk(d) && CanSettle(d, c) && status != Queued
    ensures QueuesOk(Settled(d, c, status))
  {
    var id := QueueFor(d.calls[c].kind);
    var t := Settled(d, c, status);
    RemoveKeepsOrder(Queue(d, id), c);
    forall other: QueueId
      ensures NoDuplicate(Queue(t, other))
      ensures forall x | x in Queue(t, other) :: x in Queue(d, other) && x != c
    {
      assert NoDuplicate(Queue(d, other));
    }
    forall x | 0 <= x < |t.calls| && t.calls[x].status == Queued
      ensures x in Queue(t, QueueFor(t.calls[x].kind))
    {
      assert x in Queue(d, QueueFor(d.calls[x].kind));
    }
  }

  lemma EnqueuedKeepsQueues(d: Desk, c: nat)
    requires QueuesOk(d) && c < |d.calls| && d.calls[c].status == Gated
    ensures QueuesOk(Enqueued(d, c))
  {
    var id := QueueFor(d.calls[c].kind);
    var t := Enqueued(d, c);
    assert c !in Queue(d, id);
    forall other: QueueId
      ensures NoDuplicate(Queue(t, other))
      ensures forall x | x in Queue(t, other) ::
                x < |t.calls| && t.calls[x].status == Queued && QueueFor(t.calls[x].kind) == other
    {
      assert NoDuplicate(Queue(d, other));
      assert Queue(t, other) == if other == id then Queue(d, id) + [c] else Queue(d, other);
      forall x | x in Queue(t, other)
        ensures x < |t.calls| && t.calls[x].status == Queued && QueueFor(t.calls[x].kind) == other
      {
        if x != c { assert x in Queue(d, other); }
      }
    }
    forall x | 0 <= x < |t.calls| && t.calls[x].status == Queued
      ensures x in Queue(t, QueueFor(t.calls[x].kind))
    {
      assert x != c ==> x in Queue(d, QueueFor(d.calls[x].kind));
    }
  }

  lemma NewLeaseKeepsPool(p: Pool, c: nat, kind: Kind, w: Worker)
    requires SlotsOk(p, Some(w.index)) && LeasesOk(p) && Ready(p, w)
    ensures SlotsOk(NewLease(p, c, kind, w, false), None) && LeasesOk(NewLease(p, c, kind, w, false))
    ensures var t := NewLease(p, c, kind, w, false);
            forall k | 0 <= k < |t.leases| :: Live(t, k) <==> if k < |p.leases| then Live(p, k) else true
  {
  }

  lemma LendKeepsPool(p: Pool, c: nat, kind: Kind, w: Worker)
    requires SlotsOk(p, None) && LeasesOk(p)
    ensures SlotsOk(NewLease(p, c, kind, w, true), None) && LeasesOk(NewLease(p, c, kind, w, true))
    ensures var t := NewLease(p, c, kind, w, true);
            forall k | 0 <= k < |t.leases| :: Live(t, k) <==> k < |p.leases| && Live(p, k)
  {
  }

  lemma GrantKeepsGrants(calls: seq<Call>, leases: seq<Lease>, c: nat, l: Lease)
    requires GrantsOk(calls, leases) && c < |calls| && !calls[c].status.Granted?
    requires l.call == c && l.kind == calls[c].kind
    ensures GrantsOk(calls[c := calls[c].(status := Granted(|leases|))], leases + [l])
  {
  }

  /** The worker in hand goes to a caller: a read never gets the designated one, a write always does. */
  lemma GrantKeeps(s: State, c: nat, w: Worker)
    requires Inv(s, Some(w.index)) && CanSettle(s.desk, c) && Ready(s.pool, w)
    requires s.desk.calls[c].kind == Read ==> s.current != Some(w.index)
    requires s.desk.calls[c].kind == Write ==> s.current == Some(w.index)
    ensures Inv(Grant(s, c, w, false), None)
  {
    var status := Granted(|s.pool.leases|);
    SettledKeepsQueues(s.desk, c, status);
    NewLeaseKeepsPool(s.pool, c, s.desk.calls[c].kind, w);
    GrantKeepsGrants(s.desk.calls, s.pool.leases, c,
                     Lease(c, s.desk.calls[c].kind, w, Gen(s.pool, w.index), false, false, false));
  }

  lemma LendKeeps(s: State, c: nat, w: Worker)
    requires Inv(s, None) && CanSettle(s.desk, c)
    ensures Inv(Grant(s, c, w, true), None)
  {
    SettledKeepsQueues(s.desk, c, Granted(|s.pool.leases|));
    LendKeepsPool(s.pool, c, s.desk.calls[c].kind, w);
    GrantKeepsGrants(s.desk.calls, s.pool.leases, c,
                     Lease(c, s.desk.calls[c].kind, w, Gen(s.pool, w.index), true, false, false));
  }

  lemma FreeKeeps(s: State, index: nat)
    requires Inv(s, Some(index)) && s.current != Some(index)
    ensures Inv(s.(pool := Free(s.pool, index)), None)
  {
  }

  // --------------------------------------------------------- every step keeps it

  lemma HeadsAreCallers(d: Desk)
    requires QueuesOk(d)
    ensures HeadsFit(d)
    ensures forall id: QueueId :: Queue(d, id) != [] ==>
              CanSettle(d, Queue(d, id)[0]) && QueueFor(d.calls[Queue(d, id)[0]].kind) == id
  {
    forall id: QueueId | Queue(d, id) != []
      ensures Queue(d, id)[0] < |d.calls| && CanSettle(d, Queue(d, id)[0]) && QueueFor(d.calls[Queue(d, id)[0]].kind) == id
    {
      var c := Queue(d, id)[0];
      assert c in Queue(d, id);
    }
  }

  lemma DesignateKeeps(s: State, index: nat)
    requires Inv(s, Some(index)) && (s.current == None || s.current == Some(index))
    ensures Inv(Designate(s, index), Some(index))
  {
    assert forall k | 0 <= k < |s.pool.leases| && Live(s.pool, k) :: s.pool.leases[k].worker.index != index;
  }

  lemma UndesignateKeeps(s: State, index: nat)
    requires Inv(s, Some(index))
    ensures Inv(Undesignate(s, index), Some(index))
  {
    assert forall k | 0 <= k < |s.pool.leases| && Live(s.pool, k) :: s.pool.leases[k].worker.index != index;
  }

  lemma HandOverKeeps(s: State, policy: Policy, w: Worker)
    requires Inv(s, Some(w.index)) && Ready(s.pool, w) && HeadsFit(s.desk)
    ensures Inv(HandOver(s, policy, w), None)
  {
    HeadsAreCallers(s.desk);
    UndesignateKeeps(s, w.index);
    var t := Undesignate(s, w.index);
    if s.desk.verdicts != [] {
      GrantKeeps(if s.desk.writers == [] then t else s, Queue(s.desk, Verdicts)[0], w);
    } else if MayServeWriter(s, policy, w.index) {
      DesignateKeeps(s, w.index);
      GrantKeeps(Designate(s, w.index), Queue(s.desk, Writers)[0], w);
    } else if s.desk.readers != [] {
      GrantKeeps(t, Queue(s.desk, Readers)[0], w);
    } else {
      FreeKeeps(t, w.index);
    }
  }

  lemma JoinKeeps(s: State, policy: Policy, w: Worker)
    requires Inv(s, Some(w.index)) && Ready(s.pool, w) && HeadsFit(s.desk) && s.current != Some(w.index)
    ensures Inv(Join(s, policy, w), None)
  {
    HeadsAreCallers(s.desk);
    if s.desk.verdicts != [] {
      GrantKeeps(s, Queue(s.desk, Verdicts)[0], w);
    } else if MayServeWriter(s, policy, w.index) {
      DesignateKeeps(s, w.index);
      GrantKeeps(Designate(s, w.index), Queue(s.desk, Writers)[0], w);
    } else if s.desk.readers != [] {
      GrantKeeps(s, Queue(s.desk, Readers)[0], w);
    } else {
      FreeKeeps(s, w.index);
    }
  }

  lemma AddKeeps(s: State, policy: Policy, w: Worker)
    requires Inv(s, None) && HeadsFit(s.desk) && Enabled(s, Add(w))
    ensures Inv(Apply(s, policy, Add(w)), None)
  {
    var t := s.(pool := s.pool.(workers := Put(s.pool.workers, w.index, Some(w))));
    assert forall k :: 0 <= k < |s.pool.leases| ==> Live(t.pool, k) == Live(s.pool, k);
    assert w.index !in s.pool.leased;
    assert LeasesOk(t.pool);
    JoinKeeps(t, policy, w);
  }

  /** The worker chosen is free, and never the designated one: a designated worker is in use. */
  lemma ChoiceIsFree(s: State, policy: Policy, write: bool)
    requires Inv(s, None)
    ensures var r := Choice(s, policy, write);
            r.Some? ==> r.value in s.pool.available && Present(s.pool, r.value) && s.current != r
                        && (write ==> s.current == None && policy(r.value))
    ensures Choice(s, policy, write) == None ==>
              if write then s.current.Some? || forall i | i in s.pool.available :: !policy(i)
              else s.pool.available == {}
  {
    var r := Choice(s, policy, write);
    assert forall i | i in s.pool.available :: i < |s.pool.workers|;
    if r == None && !write {
      assert forall i | i in s.pool.available :: false;
    }
  }

  lemma TakenKeeps(s: State, index: nat, write: bool)
    requires Inv(s, None) && index in s.pool.available && (write ==> s.current == None)
    ensures Inv(Taken(s, index, write), Some(index))
  {
    var t := s.(pool := s.pool.(available := s.pool.available - {index}));
    assert forall k :: 0 <= k < |s.pool.leases| ==> Live(t.pool, k) == Live(s.pool, k);
    assert Inv(t, Some(index));
    if write { DesignateKeeps(t, index); }
  }

  lemma TakeForKeeps(s: State, policy: Policy, c: nat, write: bool)
    requires Inv(s, None) && CanSettle(s.desk, c) && write == s.desk.calls[c].kind.Write?
    ensures TakeFor(s, policy, c, write).Some? ==> Inv(TakeFor(s, policy, c, write).value, None)
    ensures TakeFor(s, policy, c, write) == None <==> Choice(s, policy, write) == None
  {
    ChoiceIsFree(s, policy, write);
    var found := Choice(s, policy, write);
    if found.Some? {
      TakenKeeps(s, found.value, write);
      GrantKeeps(Taken(s, found.value, write), c, s.pool.workers[found.value].value);
    }
  }

  lemma RefuseKeeps(s: State, c: nat, why: Status)
    requires Inv(s, None) && CanSettle(s.desk, c) && (why == Aborted || why == ShutDown)
    ensures Inv(s.(desk := Settled(s.desk, c, why)), None)
    ensures s.desk.calls[c].status == Gated ==> Settled(s.desk, c, why) == SetStatus(s.desk, c, why)
  {
    SettledKeepsQueues(s.desk, c, why);
    var id := QueueFor(s.desk.calls[c].kind);
    RemoveKeepsOrder(Queue(s.desk, id), c);
  }

  lemma ProceedingKeeps(s: State, policy: Policy, c: nat)
    requires Inv(s, None) && c < |s.desk.calls| && s.desk.calls[c].status == Gated
    ensures Inv(Proceeding(s, policy, c), None)
  {
    if s.stopped {
      RefuseKeeps(s, c, ShutDown);
    } else {
      TakeForKeeps(s, policy, c, s.desk.calls[c].kind.Write?);
      EnqueuedKeepsQueues(s.desk, c);
    }
  }

  lemma AcquiringKeeps(s: State, policy: Policy, kind: Kind, aborted: bool)
    requires Inv(s, None)
    ensures Inv(Acquiring(s, policy, kind, aborted), None)
  {
    var c := |s.desk.calls|;
    var t := s.(desk := s.desk.(calls := s.desk.calls + [Call(kind, Gated)]));
    assert forall id: QueueId :: Queue(t.desk, id) == Queue(s.desk, id);
    assert Inv(t, None);
    if s.stopped {
      RefuseKeeps(t, c, ShutDown);
    } else if aborted {
      RefuseKeeps(t, c, Aborted);
    } else if s.gateOpen {
      ProceedingKeeps(t, policy, c);
    }
  }

  /** Marking a lease changes neither what it was granted for nor, unless it is released, whether it is live. */
  lemma MarkedLease(p: Pool, k: nat, l: Lease)
    requires k < |p.leases| && l == p.leases[k].(released := l.released, demoted := l.demoted)
    requires p.leases[k].released ==> l.released
    ensures var t := SetLease(p, k, l);
            forall j | 0 <= j < |p.leases| :: Live(t, j) == (Live(p, j) && (j != k || l.released == p.leases[k].released))
  {
  }

  lemma MarkedKeepsGrants(calls: seq<Call>, p: Pool, k: nat, l: Lease)
    requires k < |p.leases| && l == p.leases[k].(released := l.released, demoted := l.demoted)
    requires GrantsOk(calls, p.leases)
    ensures GrantsOk(calls, SetLease(p, k, l).leases)
  {
  }

  function Returned(p: Pool, k: nat): Pool
    requires k < |p.leases|
  {
    var t := SetLease(p, k, p.leases[k].(released := true));
    if Live(p, k) then t.(leased := p.leased - {p.leases[k].worker.index}) else t
  }

  lemma ReturnedKeepsPool(p: Pool, k: nat)
    requires SlotsOk(p, None) && LeasesOk(p) && k < |p.leases| && !p.leases[k].released
    ensures var t := Returned(p, k);
            && SlotsOk(t, if Live(p, k) then Some(p.leases[k].worker.index) else None) && LeasesOk(t)
            && forall j | 0 <= j < |p.leases| :: Live(t, j) == (Live(p, j) && j != k)
  {
    MarkedLease(p, k, p.leases[k].(released := true));
    var t := SetLease(p, k, p.leases[k].(released := true));
    assert forall j | 0 <= j < |p.leases| :: Live(Returned(p, k), j) == Live(t, j);
  }

  lemma ReturnedKeeps(s: State, k: nat)
    requires Inv(s, None) && k < |s.pool.leases| && !s.pool.leases[k].released
    ensures Inv(s.(pool := Returned(s.pool, k)), if Live(s.pool, k) then Some(s.pool.leases[k].worker.index) else None)
  {
    ReturnedKeepsPool(s.pool, k);
    MarkedKeepsGrants(s.desk.calls, s.pool, k, s.pool.leases[k].(released := true));
    var t := s.(pool := Returned(s.pool, k));
    assert forall j | 0 <= j < |t.pool.leases| && j != k :: t.pool.leases[j] == s.pool.leases[j];
  }

  lemma ReleasingKeeps(s: State, policy: Policy, k: nat)
    requires Inv(s, None) && HeadsFit(s.desk) && k < |s.pool.leases|
    ensures Inv(Releasing(s, policy, k), None)
  {
    var l := s.pool.leases[k];
    if !l.borrowed && !l.released {
      ReturnedKeeps(s, k);
      var t := s.(pool := Returned(s.pool, k));
      if Live(s.pool, k) { HandOverKeeps(t, policy, l.worker); }
    }
  }

  lemma DemotedKeeps(s: State, k: nat)
    requires Inv(s, None) && k < |s.pool.leases|
    requires Live(s.pool, k) && s.current == Some(s.pool.leases[k].worker.index)
    ensures Inv(s.(current := None, pool := SetLease(s.pool, k, s.pool.leases[k].(demoted := true))), None)
  {
    var l := s.pool.leases[k].(demoted := true);
    MarkedLease(s.pool, k, l);
    MarkedKeepsGrants(s.desk.calls, s.pool, k, l);
    var t := s.(current := None, pool := SetLease(s.pool, k, l));
    assert forall j | 0 <= j < |t.pool.leases| && j != k :: t.pool.leases[j] == s.pool.leases[j];
  }

  lemma DemotingKeeps(s: State, policy: Policy, k: nat)
    requires Inv(s, None) && HeadsFit(s.desk) && k < |s.pool.leases|
    ensures Inv(Demoting(s, policy, k), None)
  {
    var l := s.pool.leases[k];
    if Live(s.pool, k) && s.current == Some(l.worker.index) {
      DemotedKeeps(s, k);
      var t := s.(current := None, pool := SetLease(s.pool, k, l.(demoted := true)));
      if s.desk.writers != [] {
        HeadsAreCallers(s.desk);
        TakeForKeeps(t, policy, Queue(s.desk, Writers)[0], true);
      }
    }
  }

  lemma OfferingKeeps(s: State, w: Worker)
    requires Inv(s, None)
    ensures Inv(Offering(s, w), None)
  {
    var found := FirstShared(s.desk.calls, s.desk.verdicts);
    if found.Some? {
      assert found.value in Queue(s.desk, Verdicts);
      LendKeeps(s, found.value, w);
    }
  }

  lemma TakingOutKeeps(s: State, index: nat)
    requires Inv(s, None)
    ensures Inv(TakingOut(s, index), None)
  {
    PoolWithoutKeeps(s.pool, index);
  }

  lemma PoolWithoutKeeps(p: Pool, index: nat)
    requires SlotsOk(p, None) && LeasesOk(p)
    ensures SlotsOk(PoolWithout(p, index), None) && LeasesOk(PoolWithout(p, index))
    ensures var t := PoolWithout(p, index);
            forall j | 0 <= j < |p.leases| :: Live(t, j) == (Live(p, j) && p.leases[j].worker.index != index)
  {
  }

  lemma ShuttingDownKeeps(s: State)
    requires Inv(s, None)
    ensures Inv(ShuttingDown(s), None)
  {
    var t := ShuttingDown(s);
    assert forall id: QueueId :: Queue(t.desk, id) == [];
  }

  lemma AbortingKeeps(s: State, c: nat)
    requires Inv(s, None) && c < |s.desk.calls|
    ensures Inv(Aborting(s, c), None)
  {
    if CanSettle(s.desk, c) { RefuseKeeps(s, c, Aborted); }
  }

  lemma StepKeeps(s: State, policy: Policy, e: Event)
    requires Inv(s, None) && HeadsFit(s.desk) && Enabled(s, e)
    ensures Inv(Apply(s, policy, e), None) && HeadsFit(Apply(s, policy, e).desk)
  {
    match e {
      case Add(w) => AddKeeps(s, policy, w);
      case Acquire(kind, aborted) => AcquiringKeeps(s, policy, kind, aborted);
      case OpenGate =>
      case Proceed(c) => ProceedingKeeps(s, policy, c);
      case AbortCall(c) => AbortingKeeps(s, c);
      case ReleaseLease(k) => ReleasingKeeps(s, policy, k);
      case DemoteLease(k) => DemotingKeeps(s, policy, k);
      case Offer(w) => OfferingKeeps(s, w);
      case TakeOut(index) => TakingOutKeeps(s, index);
      case Shutdown => ShuttingDownKeeps(s);
    }
    HeadsAreCallers(Apply(s, policy, e).desk);
  }
}
