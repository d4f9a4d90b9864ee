/**
  * What each operation of the scheduler does to whom, without the steps' own
  * words: who is served next and on which worker, and what an operation leaves
  * alone.
  */
module SchedulerOutcomes {
  import opened Basics
  import opened SchedulerModel
  import opened SchedulerInvariant
  import opened SchedulerTheorems

  /** A caller out of a queue, everyone else in their places. */
  predicate Leaves(q: seq<nat>, r: seq<nat>, c: nat)
  {
    if c in q then exists i :: 0 <= i < |q| && q[i] == c && r == q[..i] + q[i + 1..] else r == q
  }

  /** `c` alone is answered, and waits nowhere. */
  predicate Answered(s: State, t: State, c: nat, status: Status)
  {
    && c < |s.desk.calls|
    && t.desk.calls == s.desk.calls[c := Call(s.desk.calls[c].kind, status)]
    && Leaves(s.desk.readers, t.desk.readers, c)
    && Leaves(s.desk.writers, t.desk.writers, c)
    && Leaves(s.desk.verdicts, t.desk.verdicts, c)
    && c !in t.desk.readers && c !in t.desk.writers && c !in t.desk.verdicts
  }

  /** `c` gets a new lease of `w`, the last of all. */
  predicate Served(s: State, t: State, c: nat, w: Worker, borrowed: bool)
  {
    && Answered(s, t, c, Granted(|s.pool.leases|))
    && |t.pool.leases| == |s.pool.leases| + 1
    && var l := t.pool.leases[|s.pool.leases|];
       && l.call == c && l.kind == s.desk.calls[c].kind && l.worker == w && l.borrowed == borrowed && !l.released && !l.demoted
       && (if borrowed then t.pool.leased == s.pool.leased && t.pool.available == s.pool.available
           else Live(t.pool, |s.pool.leases|) && w.index in t.pool.leased && w.index !in t.pool.available)
  }

  predicate NobodyServed(s: State, t: State) { t.desk == s.desk && |t.pool.leases| == |s.pool.leases| }

  lemma ConsLeaves(x: nat, q: seq<nat>, r: seq<nat>, c: nat)
    requires Leaves(q, r, c) && x != c
    ensures Leaves([x] + q, [x] + r, c)
  {
    if c in q {
      var i :| 0 <= i < |q| && q[i] == c && r == q[..i] + q[i + 1..];
      var more := [x] + q;
      assert more[i + 1] == c && more[..i + 1] == [x] + q[..i] && more[i + 2..] == q[i + 1..];
      assert [x] + r == more[..i + 1] + more[i + 2..];
    }
  }

  lemma {:induction false} RemoveLeaves(q: seq<nat>, c: nat)
    requires NoDuplicate(q)
    ensures Leaves(q, Remove(q, c), c) && c !in Remove(q, c)
  {
    if q != [] {
      var rest := q[1..];
      if q[0] == c {
        assert c !in rest;
        RemoveKeepsOrder(rest, c);
        assert q[..0] + q[0 + 1..] == rest;
      } else {
        RemoveLeaves(rest, c);
        ConsLeaves(q[0], rest, Remove(rest, c), c);
        assert [q[0]] + rest == q;
      }
    }
  }

  lemma SettledAnswers(s: State, t: State, c: nat, status: Status)
    requires QueuesOk(s.desk) && CanSettle(s.desk, c) && t.desk == Settled(s.desk, c, status)
    ensures Answered(s, t, c, status)
  {
    var own := QueueFor(s.desk.calls[c].kind);
    RemoveLeaves(Queue(s.desk, own), c);
    forall id: QueueId
      ensures Leaves(Queue(s.desk, id), Queue(t.desk, id), c) && c !in Queue(t.desk, id)
    {
      assert NoDuplicate(Queue(s.desk, id));
      if id != own { assert c !in Queue(s.desk, id); }
    }
    assert Leaves(Queue(s.desk, Readers), Queue(t.desk, Readers), c) && c !in Queue(t.desk, Readers);
    assert Leaves(Queue(s.desk, Writers), Queue(t.desk, Writers), c) && c !in Queue(t.desk, Writers);
    assert Leaves(Queue(s.desk, Verdicts), Queue(t.desk, Verdicts), c) && c !in Queue(t.desk, Verdicts);
  }

  // ------------------------------------------------------------------------ abort

  /** The caller has no answer yet: it waits in a queue, or for the gate. */
  predicate IsWaiting(s: State, c: nat)
  {
    c < |s.desk.calls| && (s.desk.calls[c].status == Queued || (s.desk.calls[c].status == Gated && !s.gateOpen))
  }

  /** An abort answers a caller that waits, and takes it out of its queue; any other it leaves alone. */
  lemma AbortOutcome(s: State, policy: Policy, c: nat)
    requires Good(s) && c < |s.desk.calls|
    ensures var t := Apply(s, policy, AbortCall(c));
            && t == s.(desk := t.desk)
            && (if IsWaiting(s, c) then Answered(s, t, c, Aborted) else t == s)
  {
    if IsWaiting(s, c) { SettledAnswers(s, Apply(s, policy, AbortCall(c)), c, Aborted); }
  }

  /** A caller that aborts while it waits is never granted a worker, in any run. */
  lemma AbortedIsNeverGranted(s: State, policy: Policy, c: nat, events: seq<Event>)
    requires Good(s) && IsWaiting(s, c) && CanRun(Apply(s, policy, AbortCall(c)), policy, events)
    ensures var t := Run(Apply(s, policy, AbortCall(c)), policy, events);
            c < |t.desk.calls| && t.desk.calls[c].status == Aborted
  {
    AbortOutcome(s, policy, c);
    StepKeepsGood(s, policy, AbortCall(c));
    SettledOnce(Apply(s, policy, AbortCall(c)), policy, events);
  }

  // ------------------------------------------------------------------ who comes next

  /** Who a worker that comes back or joins serves: a verdict before a writer it may take, a writer before a reader. */
  function Next(s: State, policy: Policy, index: nat): Option<nat>
  {
    if s.desk.verdicts != [] then Some(s.desk.verdicts[0])
    else if s.desk.writers != [] && (s.current == Some(index) || (s.current == None && policy(index)))
    then Some(s.desk.writers[0])
    else if s.desk.readers != [] then Some(s.desk.readers[0])
    else None
  }

  /** The designation once worker `index` came back or joined. */
  predicate DesignatedAfter(s: State, t: State, policy: Policy, index: nat)
  {
    var next := Next(s, policy, index);
    if next.Some? && next.value < |s.desk.calls| && s.desk.calls[next.value].kind == Write
    then t.current == Some(index) && t.last == Some(index)
    else
      && t.last == s.last
      && t.current == if s.current == Some(index) && s.desk.writers == [] then None else s.current
  }

  predicate NextIsServed(s: State, t: State, policy: Policy, w: Worker)
  {
    match Next(s, policy, w.index)
    case Some(c) => Served(s, t, c, w, false)
    case None => NobodyServed(s, t) && t.pool.available == s.pool.available + {w.index}
  }

  lemma GrantServes(s: State, c: nat, w: Worker, borrowed: bool)
    requires QueuesOk(s.desk) && CanSettle(s.desk, c) && (borrowed || w.index !in s.pool.available)
    ensures Served(s, Grant(s, c, w, borrowed), c, w, borrowed)
  {
    SettledAnswers(s, Grant(s, c, w, borrowed), c, Granted(|s.pool.leases|));
  }

  lemma HeadServed(s: State, u: State, id: QueueId, w: Worker)
    requires QueuesOk(s.desk) && HeadsFit(s.desk) && Queue(s.desk, id) != [] && w.index !in s.pool.available
    requires u.desk == s.desk && u.pool == s.pool
    ensures Served(s, ServeHead(u, id, w), Queue(s.desk, id)[0], w, false)
    ensures ServeHead(u, id, w).current == u.current && ServeHead(u, id, w).last == u.last
    ensures QueueFor(s.desk.calls[Queue(s.desk, id)[0]].kind) == id
  {
    HeadsAreCallers(s.desk);
    GrantServes(u, Queue(s.desk, id)[0], w, false);
  }

  lemma HandOverOutcome(s: State, policy: Policy, w: Worker)
    requires Inv(s, Some(w.index)) && HeadsFit(s.desk)
    ensures var t := HandOver(s, policy, w); NextIsServed(s, t, policy, w) && DesignatedAfter(s, t, policy, w.index)
  {
    if s.desk.verdicts != [] {
      HeadServed(s, if s.desk.writers == [] then Undesignate(s, w.index) else s, Verdicts, w);
    } else if MayServeWriter(s, policy, w.index) {
      HeadServed(s, Designate(s, w.index), Writers, w);
    } else if s.desk.readers != [] {
      HeadServed(s, Undesignate(s, w.index), Readers, w);
    }
  }

  lemma JoinOutcome(s: State, policy: Policy, w: Worker)
    requires Inv(s, Some(w.index)) && HeadsFit(s.desk) && s.current != Some(w.index)
    ensures var t := Join(s, policy, w); NextIsServed(s, t, policy, w) && DesignatedAfter(s, t, policy, w.index)
  {
    if s.desk.verdicts != [] {
      HeadServed(s, s, Verdicts, w);
    } else if MayServeWriter(s, policy, w.index) {
      HeadServed(s, Designate(s, w.index), Writers, w);
    } else if s.desk.readers != [] {
      HeadServed(s, s, Readers, w);
    }
  }

  /** A live lease released: its worker serves whoever comes next, or is free again; and the lease holds nothing. */
  lemma ReleaseOutcome(s: State, policy: Policy, k: nat)
    requires Good(s) && k < |s.pool.leases| && Live(s.pool, k)
    ensures var t, w := Apply(s, policy, ReleaseLease(k)), s.pool.leases[k].worker;
            && NextIsServed(s, t, policy, w) && DesignatedAfter(s, t, policy, w.index)
            && t.pool.leases[k] == s.pool.leases[k].(released := true)
  {
    ReturnedKeeps(s, k);
    var w, u := s.pool.leases[k].worker, s.(pool := Returned(s.pool, k));
    HandOverOutcome(u, policy, w);
    GrantKeepsLease(u, policy, w, k);
    if Next(s, policy, w.index) == None { assert u.pool.available == s.pool.available; }
  }

  lemma GrantKeepsLease(u: State, policy: Policy, w: Worker, k: nat)
    requires HeadsFit(u.desk) && k < |u.pool.leases|
    ensures |HandOver(u, policy, w).pool.leases| >= |u.pool.leases| && HandOver(u, policy, w).pool.leases[k] == u.pool.leases[k]
  {
    forall v: State, id: QueueId | v.desk == u.desk && v.pool == u.pool && Queue(v.desk, id) != []
      ensures var p := ServeHead(v, id, w).pool; |p.leases| >= |u.pool.leases| && p.leases[k] == u.pool.leases[k]
    {
    }
  }

  lemma AddedKeeps(s: State, w: Worker)
    requires Inv(s, None) && Enabled(s, Add(w))
    ensures Inv(s.(pool := s.pool.(workers := Put(s.pool.workers, w.index, Some(w)))), Some(w.index))
    ensures s.current != Some(w.index) && w.index !in s.pool.available
  {
    var u := s.(pool := s.pool.(workers := Put(s.pool.workers, w.index, Some(w))));
    assert forall k :: 0 <= k < |s.pool.leases| ==> Live(u.pool, k) == Live(s.pool, k);
    assert w.index !in s.pool.leased;
    assert LeasesOk(u.pool);
  }

  lemma JoinKeepsWorkers(s: State, policy: Policy, w: Worker)
    requires HeadsFit(s.desk)
    ensures Join(s, policy, w).pool.workers == s.pool.workers
  {
  }

  lemma OnlyTheWorkers(s: State, u: State, t: State, policy: Policy, w: Worker)
    requires u == s.(pool := s.pool.(workers := u.pool.workers))
    requires NextIsServed(u, t, policy, w) && DesignatedAfter(u, t, policy, w.index)
    ensures NextIsServed(s, t, policy, w) && DesignatedAfter(s, t, policy, w.index)
  {
  }

  /** A worker that joins serves whoever comes next, or is free. */
  lemma AddOutcome(s: State, policy: Policy, w: Worker)
    requires Good(s) && Enabled(s, Add(w))
    ensures var t := Apply(s, policy, Add(w));
            && NextIsServed(s, t, policy, w) && DesignatedAfter(s, t, policy, w.index) && Ready(t.pool, w)
  {
    var u := s.(pool := s.pool.(workers := Put(s.pool.workers, w.index, Some(w))));
    AddedKeeps(s, w);
    JoinOutcome(u, policy, w);
    JoinKeepsWorkers(u, policy, w);
    OnlyTheWorkers(s, u, Join(u, policy, w), policy, w);
  }

  // ----------------------------------------------------------------------- acquire

  /** A free worker that may serve. */
  predicate May(s: State, policy: Policy, write: bool, index: nat)
  {
    index in s.pool.available && (!write || (s.current == None && policy(index)))
  }

  /**
    * An acquire past the gate: refused once shut down; else served on a free worker
    * that may serve it, the last writer's if that is one and else the lowest; else
    * at the end of its queue.
    */
  lemma ProceedOutcome(s: State, policy: Policy, c: nat)
    requires Good(s) && Enabled(s, Proceed(c))
    ensures var t, kind := Apply(s, policy, Proceed(c)), s.desk.calls[c].kind;
            if s.stopped then Answered(s, t, c, ShutDown) && t.pool == s.pool
            else if exists i :: May(s, policy, kind.Write?, i) then
              && |t.pool.leases| > |s.pool.leases|
              && var w := t.pool.leases[|s.pool.leases|].worker;
                 && Served(s, t, c, w, false) && Ready(s.pool, w) && May(s, policy, kind.Write?, w.index)
                 && PreferredTo(s, policy, kind.Write?, w.index)
                 && (if kind == Write then t.current == t.last == Some(w.index)
                     else t.current == s.current && t.last == s.last)
            else
              && t == s.(desk := t.desk) && t.desk.calls == s.desk.calls[c := Call(kind, Queued)]
              && t.desk.readers == s.desk.readers + (if kind == Read then [c] else [])
              && t.desk.writers == s.desk.writers + (if kind == Write then [c] else [])
              && t.desk.verdicts == s.desk.verdicts + (if kind.Verdict? then [c] else [])
  {
    var t, kind := Apply(s, policy, Proceed(c)), s.desk.calls[c].kind;
    if s.stopped {
      RefuseKeeps(s, c, ShutDown);
      SettledAnswers(s, t, c, ShutDown);
    } else {
      ChoiceOutcome(s, policy, kind.Write?);
      var found := Choice(s, policy, kind.Write?);
      if found.Some? {
        TakenServes(s, c, found.value, kind.Write?);
      } else {
        assert s.desk.readers + [] == s.desk.readers && s.desk.writers + [] == s.desk.writers;
        assert s.desk.verdicts + [] == s.desk.verdicts;
      }
    }
  }

  /** The last writer's worker before any other, then the lowest index. */
  ghost predicate PreferredTo(s: State, policy: Policy, write: bool, index: nat)
  {
    s.last != Some(index) ==> forall i | May(s, policy, write, i) :: s.last != Some(i) && index <= i
  }

  lemma ChoiceOutcome(s: State, policy: Policy, write: bool)
    requires Good(s)
    ensures var r := Choice(s, policy, write);
            && (r.Some? <==> exists i :: May(s, policy, write, i))
            && (r.Some? ==> && May(s, policy, write, r.value) && Present(s.pool, r.value)
                            && PreferredTo(s, policy, write, r.value))
  {
    ChoiceIsFree(s, policy, write);
    assert forall i | i in s.pool.available :: i < |s.pool.workers|;
    var r := Choice(s, policy, write);
    if r.Some? { assert May(s, policy, write, r.value); }
  }

  lemma TakenServes(s: State, c: nat, index: nat, write: bool)
    requires Good(s) && CanSettle(s.desk, c) && index in s.pool.available && Present(s.pool, index)
    requires write == s.desk.calls[c].kind.Write? && (write ==> s.current == None)
    ensures var w := s.pool.workers[index].value;
            && var t := Grant(Taken(s, index, write), c, w, false);
               && Served(s, t, c, w, false) && w.index == index && Ready(s.pool, w)
               && (if write then t.current == t.last == Some(index) else t.current == s.current && t.last == s.last)
  {
    GrantServes(Taken(s, index, write), c, s.pool.workers[index].value, false);
  }

  /** An acquire: refused once shut down or already aborted; let through an open gate; else it waits for the gate. */
  lemma AcquireOutcome(s: State, policy: Policy, kind: Kind, aborted: bool)
    requires Good(s)
    ensures var t, c := Apply(s, policy, Acquire(kind, aborted)), |s.desk.calls|;
            var u := s.(desk := s.desk.(calls := s.desk.calls + [Call(kind, Gated)]));
            if s.stopped then t == u.(desk := u.desk.(calls := s.desk.calls + [Call(kind, ShutDown)]))
            else if aborted then t == u.(desk := u.desk.(calls := s.desk.calls + [Call(kind, Aborted)]))
            else if s.gateOpen then Good(u) && t == Apply(u, policy, Proceed(c))
            else t == u
  {
    var u := s.(desk := s.desk.(calls := s.desk.calls + [Call(kind, Gated)]));
    assert forall id: QueueId :: Queue(u.desk, id) == Queue(s.desk, id);
  }

  // ------------------------------------------------------------------- the other operations

  function Demoted(s: State, k: nat): State
    requires k < |s.pool.leases|
  {
    s.(current := None, pool := SetLease(s.pool, k, s.pool.leases[k].(demoted := true)))
  }

  lemma DemotedIsGood(s: State, k: nat)
    requires Good(s) && k < |s.pool.leases| && Live(s.pool, k) && s.current == Some(s.pool.leases[k].worker.index)
    ensures Good(Demoted(s, k)) && Live(Demoted(s, k).pool, k)
  {
    DemotedKeeps(s, k);
    MarkedLease(s.pool, k, Demoted(s, k).pool.leases[k]);
  }

  /**
    * A write demoted gives the designation up, and the head writer is served on
    * another free worker that may be designated, if there is one.
    */
  lemma DemoteOutcome(s: State, policy: Policy, k: nat)
    requires Good(s) && k < |s.pool.leases| && Live(s.pool, k) && s.current == Some(s.pool.leases[k].worker.index)
    ensures var t := Apply(s, policy, DemoteLease(k));
            && t.pool.leases[k] == s.pool.leases[k].(demoted := true) && Live(t.pool, k)
            && (if s.desk.writers != [] && exists i :: i in s.pool.available && policy(i)
                then && |t.pool.leases| > |s.pool.leases|
                     && var w := t.pool.leases[|s.pool.leases|].worker;
                        && Served(s, t, s.desk.writers[0], w, false) && Ready(s.pool, w)
                        && w.index in s.pool.available && policy(w.index) && t.current == Some(w.index)
                else NobodyServed(s, t) && t.current == None && t.last == s.last && t.pool.available == s.pool.available)
  {
    var u := Demoted(s, k);
    DemotedIsGood(s, k);
    ChoiceOutcome(u, policy, true);
    if s.desk.writers != [] {
      HeadsAreCallers(s.desk);
      var c, found := Queue(s.desk, Writers)[0], Choice(u, policy, true);
      if found.Some? {
        TakenServes(u, c, found.value, true);
        assert May(u, policy, true, found.value);
      } else {
        assert forall i | i in s.pool.available && policy(i) :: May(u, policy, true, i);
      }
    }
  }

  /** A worker lent goes to the first verdict waiting that takes one, and to nobody else. */
  lemma OfferOutcome(s: State, policy: Policy, w: Worker)
    requires Good(s)
    ensures var t := Apply(s, policy, Offer(w));
            if exists c :: c in s.desk.verdicts && c < |s.desk.calls| && s.desk.calls[c].kind == Verdict(false)
            then exists i :: && 0 <= i < |s.desk.verdicts| && Served(s, t, s.desk.verdicts[i], w, true)
                             && s.desk.verdicts[i] < |s.desk.calls| && s.desk.calls[s.desk.verdicts[i]].kind == Verdict(false)
                             && (forall j | 0 <= j < i && s.desk.verdicts[j] < |s.desk.calls| ::
                                   s.desk.calls[s.desk.verdicts[j]].kind == Verdict(true))
                             && t.current == s.current && t.last == s.last
            else t == s
  {
    var found := FirstShared(s.desk.calls, s.desk.verdicts);
    if found.Some? {
      assert forall c | c in s.desk.verdicts :: c in Queue(s.desk, Verdicts);
      var i := SharedAt(s.desk.calls, s.desk.verdicts);
      GrantServes(s, found.value, w, true);
    }
  }

  lemma {:induction false} SharedAt(calls: seq<Call>, q: seq<nat>) returns (i: nat)
    requires FirstShared(calls, q).Some? && forall c | c in q :: c < |calls| && calls[c].kind.Verdict?
    ensures i < |q| && q[i] == FirstShared(calls, q).value
    ensures forall j | 0 <= j < i :: q[j] < |calls| && calls[q[j]].kind == Verdict(true)
  {
    if q[0] < |calls| && calls[q[0]].kind == Verdict(false) {
      i := 0;
    } else {
      assert forall c | c in q[1..] :: c in q;
      var k := SharedAt(calls, q[1..]);
      i := k + 1;
      assert q[0] in q && calls[q[0]].kind.Verdict?;
      assert forall j | 0 < j < i :: q[j] == q[1..][j - 1];
    }
  }

  /** A worker taken out is gone, its leases are dead, and nobody is served or refused for it. */
  lemma TakeOutOutcome(s: State, policy: Policy, index: nat)
    requires Good(s)
    ensures var t := Apply(s, policy, TakeOut(index));
            && t.desk == s.desk && t.pool.leases == s.pool.leases && !Present(t.pool, index)
            && t.pool.available == s.pool.available - {index} && t.pool.leased == s.pool.leased - {index}
            && (forall i | i != index :: Present(t.pool, i) <==> Present(s.pool, i))
            && (forall k | 0 <= k < |s.pool.leases| ::
                  Live(t.pool, k) <==> Live(s.pool, k) && s.pool.leases[k].worker.index != index)
            && t.current == (if s.current == Some(index) then None else s.current)
            && t.last == if s.last == Some(index) then None else s.last
  {
    PoolWithoutKeeps(s.pool, index);
  }

  /** A shutdown refuses every caller in a queue, touches no lease, and lets nobody else wait. */
  lemma ShutdownOutcome(s: State, policy: Policy)
    requires Good(s)
    ensures var t := Apply(s, policy, Shutdown);
            && t.stopped && t.gateOpen && t.pool == s.pool && |t.desk.calls| == |s.desk.calls|
            && t.desk.readers == t.desk.writers == t.desk.verdicts == []
            && (forall c | 0 <= c < |s.desk.calls| ::
                  t.desk.calls[c] == if s.desk.calls[c].status == Queued then Call(s.desk.calls[c].kind, ShutDown) else s.desk.calls[c])
            && (t.drained <==> s.pool.leased == {})
  {
  }
}
