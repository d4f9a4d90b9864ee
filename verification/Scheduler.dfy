/**
  * The scheduler as it runs: its sets, queues and indices are reassigned step by
  * step. Every operation is the machine's step of the same name, so everything
  * proved of the machine's runs holds of this object's.
  */
module Scheduler {
  import opened Basics
  import Model = SchedulerModel
  import opened SchedulerModel
  import opened SchedulerInvariant
  import opened SchedulerTheorems

  class WorkerScheduler {
    const policy: Policy
    var workers: seq<Option<Worker>>
    var available: set<nat>
    var leased: set<nat>
    var generations: map<nat, nat>
    var readerQueue: seq<nat>
    var writerQueue: seq<nat>
    var verdictQueue: seq<nat>
    var currentWriterIndex: int
    var lastWriterIndex: int
    var gateOpen: bool
    var stopped: bool
    var drained: bool
    var leases: seq<Lease>
    var calls: seq<Call>
    ghost var holder: map<nat, nat>

    ghost function View(): State
      reads this
    {
      State(Pool(workers, available, leased, generations, holder, leases),
            Desk(readerQueue, writerQueue, verdictQueue, calls),
            if currentWriterIndex < 0 then None else Some(currentWriterIndex),
            if lastWriterIndex < 0 then None else Some(lastWriterIndex),
            gateOpen, stopped, drained)
    }

    ghost predicate Valid()
      reads this
    {
      Good(View())
    }

    constructor (policy: Policy, gateOpen: bool)
      ensures Valid() && View() == InitState(gateOpen) && this.policy == policy
    {
      this.policy := policy;
      workers, available, leased, generations := [], {}, {}, map[];
      readerQueue, writerQueue, verdictQueue := [], [], [];
      currentWriterIndex, lastWriterIndex := -1, -1;
      this.gateOpen, stopped, drained := gateOpen, false, false;
      leases, calls, holder := [], [], map[];
      new;
      InitKeeps(gateOpen);
    }

    /** A worker goes to a caller that is in no queue any more. */
    method Grant(c: nat, w: Worker, borrowed: bool)
      requires c < |calls| && c !in Queue(View().desk, QueueFor(calls[c].kind))
      modifies this`leases, this`calls, this`leased, this`holder
      ensures View() == old(Model.Grant(View(), c, w, borrowed))
    {
      var kind, k := calls[c].kind, |leases|;
      RemoveAbsent(Queue(View().desk, QueueFor(kind)), c);
      var gen := if w.index in generations then generations[w.index] else 0;
      leases := leases + [Lease(c, kind, w, gen, borrowed, false, false)];
      calls := calls[c := Call(kind, Granted(k))];
      if !borrowed {
        leased := leased + {w.index};
        holder := holder[w.index := k];
      }
    }

    lemma RemoveAbsent(q: seq<nat>, c: nat)
      requires c !in q
      ensures Remove(q, c) == q
    {
    }

    /** The head of a queue is shifted out and resolved. */
    method Shift(id: QueueId, w: Worker)
      requires QueuesOk(View().desk) && HeadsFit(View().desk) && Queue(View().desk, id) != []
      modifies this`readerQueue, this`writerQueue, this`verdictQueue, this`leases, this`calls, this`leased, this`holder
      ensures View() == old(ServeHead(View(), id, w))
    {
      var q := match id case Readers => readerQueue case Writers => writerQueue case Verdicts => verdictQueue;
      HeadsAreCallers(View().desk);
      assert NoDuplicate(Queue(View().desk, id));
      RemoveKeepsOrder(q, q[0]);
      match id {
        case Readers => readerQueue := readerQueue[1..];
        case Writers => writerQueue := writerQueue[1..];
        case Verdicts => verdictQueue := verdictQueue[1..];
      }
      Grant(q[0], w, false);
    }

    /** Serves the writer queue from `w` when it may hold the designation. */
    method ServeWriterFirst(w: Worker) returns (served: bool)
      requires QueuesOk(View().desk) && HeadsFit(View().desk)
      modifies this`currentWriterIndex, this`lastWriterIndex
      modifies this`readerQueue, this`writerQueue, this`verdictQueue, this`leases, this`calls, this`leased, this`holder
      ensures served == old(MayServeWriter(View(), policy, w.index))
      ensures View() == if served then old(ServeHead(Designate(View(), w.index), Writers, w)) else old(View())
    {
      if writerQueue == [] { return false; }
      if currentWriterIndex != w.index && currentWriterIndex >= 0 { return false; }
      if currentWriterIndex < 0 && !policy(w.index) { return false; }
      currentWriterIndex, lastWriterIndex := w.index, w.index;
      Shift(Writers, w);
      served := true;
    }

    /** What `release()` does with a worker that comes back. */
    method HandOver(w: Worker)
      requires QueuesOk(View().desk) && HeadsFit(View().desk)
      modifies this`currentWriterIndex, this`lastWriterIndex, this`available
      modifies this`readerQueue, this`writerQueue, this`verdictQueue, this`leases, this`calls, this`leased, this`holder
      ensures View() == old(Model.HandOver(View(), policy, w))
    {
      if verdictQueue != [] {
        if currentWriterIndex == w.index && writerQueue == [] { currentWriterIndex := -1; }
        Shift(Verdicts, w);
        return;
      }
      var served := ServeWriterFirst(w);
      if served { return; }
      if currentWriterIndex == w.index { currentWriterIndex := -1; }
      if readerQueue != [] {
        Shift(Readers, w);
        return;
      }
      available := available + {w.index};
    }

    method CheckShutdown()
      modifies this`drained
      ensures View() == old(Drain(View()))
    {
      if stopped && leased == {} { drained := true; }
    }

    /** Takes the free worker a caller may have, and the designation with it for a write. */
    method TakeAvailable(write: bool) returns (found: Option<Worker>)
      requires forall i | i in available :: Present(View().pool, i)
      modifies this`available, this`currentWriterIndex, this`lastWriterIndex
      ensures var choice := old(Choice(View(), policy, write));
              if choice == None then found == None && View() == old(View())
              else
                && old(Present(View().pool, choice.value)) && found == old(workers)[choice.value]
                && View() == old(Taken(View(), choice.value, write))
    {
      ghost var choice := Choice(View(), policy, write);
      if write && currentWriterIndex >= 0 {
        if currentWriterIndex !in available { return None; }
        available := available - {currentWriterIndex};
        return workers[currentWriterIndex];
      }
      if lastWriterIndex >= 0 && lastWriterIndex in available && (!write || policy(lastWriterIndex)) {
        found := workers[lastWriterIndex];
        available := available - {lastWriterIndex};
        if write { currentWriterIndex := lastWriterIndex; }
        return;
      }
      var i := 0;
      while i < |workers| && !(i in available && (!write || policy(i)))
        invariant 0 <= i <= |workers|
        invariant forall j | 0 <= j < i :: !(j in available && (!write || policy(j)))
      {
        i := i + 1;
      }
      if i == |workers| { return None; }
      assert choice == Some(i);
      found := workers[i];
      available := available - {i};
      if write { currentWriterIndex, lastWriterIndex := i, i; }
    }

    /** What `add()` does with the worker once it has its slot. */
    method Join(w: Worker)
      requires QueuesOk(View().desk) && HeadsFit(View().desk)
      modifies this`currentWriterIndex, this`lastWriterIndex, this`available
      modifies this`readerQueue, this`writerQueue, this`verdictQueue, this`leases, this`calls, this`leased, this`holder
      ensures View() == old(Model.Join(View(), policy, w))
    {
      if verdictQueue != [] {
        Shift(Verdicts, w);
        return;
      }
      var served := ServeWriterFirst(w);
      if served { return; }
      if readerQueue != [] {
        Shift(Readers, w);
        return;
      }
      available := available + {w.index};
    }

    method SetSlot(index: nat, w: Option<Worker>)
      modifies this`workers
      ensures workers == Put(old(workers), index, w)
    {
      var n := |workers|;
      workers := if index < n then workers[index := w] else workers + seq(index - n, _ => None) + [w];
    }

    method Add(w: Worker)
      requires Valid() && !Present(View().pool, w.index)
      modifies this
      ensures Valid() && View() == old(Apply(View(), policy, Event.Add(w)))
    {
      ghost var s := View();
      SetSlot(w.index, Some(w));
      assert View().desk == s.desk;
      Join(w);
      StepKeepsGood(s, policy, Event.Add(w));
    }

    /** A caller joins the end of its queue. */
    method Wait(c: nat)
      requires c < |calls|
      modifies this`readerQueue, this`writerQueue, this`verdictQueue, this`calls
      ensures View() == old(View().(desk := Enqueued(View().desk, c)))
    {
      match calls[c].kind {
        case Read => readerQueue := readerQueue + [c];
        case Write => writerQueue := writerQueue + [c];
        case Verdict(_) => verdictQueue := verdictQueue + [c];
      }
      calls := calls[c := calls[c].(status := Queued)];
    }

    /** Past the gate: an answer at once, or a place in the queue. */
    method TakeOrWait(c: nat)
      requires c < |calls| && c !in Queue(View().desk, QueueFor(calls[c].kind))
      requires forall i | i in available :: Present(View().pool, i)
      modifies this
      ensures View() == old(Proceeding(View(), policy, c))
    {
      if stopped {
        calls := calls[c := calls[c].(status := ShutDown)];
        return;
      }
      var found := TakeAvailable(calls[c].kind.Write?);
      if found.Some? {
        Grant(c, found.value, false);
      } else {
        Wait(c);
      }
    }

    /** What an acquire that waited for the readiness gate does once it is open. */
    method AcquireNow(c: nat)
      requires Valid() && Enabled(View(), Proceed(c))
      modifies this
      ensures Valid() && View() == old(Apply(View(), policy, Proceed(c)))
    {
      ghost var s := View();
      assert c !in Queue(s.desk, QueueFor(calls[c].kind));
      TakeOrWait(c);
      StepKeepsGood(s, policy, Proceed(c));
    }

    method Acquire(kind: Kind, aborted: bool) returns (c: nat)
      requires Valid()
      modifies this
      ensures Valid() && c == |old(calls)| && View() == old(Apply(View(), policy, Event.Acquire(kind, aborted)))
    {
      ghost var s := View();
      c := |calls|;
      assert c !in Queue(s.desk, QueueFor(kind));
      if stopped || aborted {
        var answer := Call(kind, if stopped then ShutDown else Aborted);
        calls := calls + [answer];
        assert calls == (s.desk.calls + [Call(kind, Gated)])[c := answer];
      } else {
        calls := calls + [Call(kind, Gated)];
        if gateOpen { TakeOrWait(c); }
      }
      assert View() == Acquiring(s, policy, kind, aborted);
      StepKeepsGood(s, policy, Event.Acquire(kind, aborted));
    }

    /** A waiter still in its queue is removed, never rejected in place. */
    method LeaveQueue(c: nat)
      requires c < |calls| && calls[c].status == Queued && QueuesOk(View().desk)
      modifies this`readerQueue, this`writerQueue, this`verdictQueue
      ensures var d := old(View().desk);
              var id := QueueFor(calls[c].kind);
              View() == old(View()).(desk := SetQueue(d, id, Remove(Queue(d, id), c)))
    {
      var id := QueueFor(calls[c].kind);
      var q := match id case Readers => readerQueue case Writers => writerQueue case Verdicts => verdictQueue;
      assert c in Queue(View().desk, id);
      assert NoDuplicate(Queue(View().desk, id));
      var at := 0;
      while q[at] != c
        invariant at < |q| && c !in q[..at]
        decreases |q| - at
      {
        at := at + 1;
      }
      SpliceIsRemove(q, at);
      match id {
        case Readers => readerQueue := q[..at] + q[at + 1..];
        case Writers => writerQueue := q[..at] + q[at + 1..];
        case Verdicts => verdictQueue := q[..at] + q[at + 1..];
      }
    }

    /** The signal of an acquire aborts: one that was granted already is left alone. */
    method Abort(c: nat)
      requires Valid() && c < |calls|
      modifies this
      ensures Valid() && View() == old(Apply(View(), policy, AbortCall(c)))
    {
      ghost var s := View();
      var status := calls[c].status;
      if status == Queued { LeaveQueue(c); }
      if status == Queued || (status == Gated && !gateOpen) {
        if status == Gated {
          assert c !in Queue(s.desk, QueueFor(calls[c].kind));
          RemoveAbsent(Queue(s.desk, QueueFor(calls[c].kind)), c);
        }
        calls := calls[c := calls[c].(status := Aborted)];
      }
      StepKeepsGood(s, policy, AbortCall(c));
    }

    /** A lease's `release()`. */
    method ReleaseLease(k: nat)
      requires Valid() && k < |leases|
      modifies this
      ensures Valid() && View() == old(Apply(View(), policy, Event.ReleaseLease(k)))
    {
      StepKeepsGood(View(), policy, Event.ReleaseLease(k));
      var l, live := leases[k], IsLive(k);
      if l.borrowed || l.released { return; }
      leases := leases[k := l.(released := true)];
      if !live {
        CheckShutdown();
        return;
      }
      leased := leased - {l.worker.index};
      HandOver(l.worker);
      CheckShutdown();
    }

    /** Gives the designation up, and marks the lease that had it. */
    method GiveUpDesignation(k: nat)
      requires k < |leases|
      modifies this`leases, this`currentWriterIndex
      ensures View() == old(View().(current := None, pool := SetLease(View().pool, k, leases[k].(demoted := true))))
    {
      leases := leases[k := leases[k].(demoted := true)];
      currentWriterIndex := -1;
    }

    predicate IsLive(k: nat)
      requires k < |leases|
      reads this
    {
      var l := leases[k];
      !l.borrowed && !l.released && (if l.worker.index in generations then generations[l.worker.index] else 0) == l.gen
    }

    /** A lease's `demote()`. */
    method DemoteLease(k: nat)
      requires Valid() && k < |leases|
      modifies this
      ensures Valid() && View() == old(Apply(View(), policy, Event.DemoteLease(k)))
    {
      ghost var s := View();
      StepKeepsGood(s, policy, Event.DemoteLease(k));
      if !IsLive(k) || currentWriterIndex != leases[k].worker.index { return; }
      GiveUpDesignation(k);
      if writerQueue == [] { return; }
      var next := TakeAvailable(true);
      if next.Some? { Shift(Writers, next.value); }
    }

    /** Where the first verdict waiter is that a lent worker may serve, or the length. */
    method FindShared() returns (at: nat)
      requires forall j | 0 <= j < |verdictQueue| :: verdictQueue[j] < |calls|
      ensures at <= |verdictQueue|
      ensures FirstShared(calls, verdictQueue) == if at < |verdictQueue| then Some(verdictQueue[at]) else None
    {
      at := 0;
      while at < |verdictQueue| && calls[verdictQueue[at]].kind != Verdict(false)
        invariant 0 <= at <= |verdictQueue|
        invariant FirstShared(calls, verdictQueue[at..]) == FirstShared(calls, verdictQueue)
      {
        assert verdictQueue[at..][1..] == verdictQueue[at + 1..];
        at := at + 1;
      }
    }

    method LendTo(at: nat, w: Worker)
      requires at < |verdictQueue| && QueuesOk(View().desk)
      modifies this`verdictQueue, this`leases, this`calls, this`leased, this`holder
      ensures at < |old(verdictQueue)| && old(verdictQueue)[at] < |old(calls)|
      ensures View() == old(Model.Grant(View(), verdictQueue[at], w, true))
    {
      var c := verdictQueue[at];
      assert c in Queue(View().desk, Verdicts);
      assert NoDuplicate(Queue(View().desk, Verdicts));
      SpliceIsRemove(verdictQueue, at);
      verdictQueue := verdictQueue[..at] + verdictQueue[at + 1..];
      Grant(c, w, true);
    }

    /** Lends a worker that is not the scheduler's to the first verdict waiter that may have it. */
    method Offer(w: Worker) returns (lent: bool)
      requires Valid()
      modifies this
      ensures Valid() && View() == old(Apply(View(), policy, Event.Offer(w)))
      ensures lent == old(FirstShared(calls, verdictQueue).Some?)
    {
      ghost var s := View();
      forall j | 0 <= j < |verdictQueue|
        ensures verdictQueue[j] < |calls|
      {
        assert verdictQueue[j] in Queue(s.desk, Verdicts);
      }
      var at := FindShared();
      lent := at < |verdictQueue|;
      if lent { LendTo(at, w); }
      StepKeepsGood(s, policy, Event.Offer(w));
    }

    /** The slot's worker, and whoever had it, are gone; a lease on it is stale from here on. */
    method EmptySlot(index: nat)
      modifies this`available, this`leased, this`workers, this`generations
      ensures View() == old(View().(pool := PoolWithout(View().pool, index)))
    {
      available := available - {index};
      leased := leased - {index};
      SetSlot(index, None);
      generations := generations[index := (if index in generations then generations[index] else 0) + 1];
    }

    /** No designation and no freshness hint outlives the worker. */
    method ForgetWriter(index: nat)
      modifies this`currentWriterIndex, this`lastWriterIndex
      ensures var s := old(View());
              View() == s.(current := if s.current == Some(index) then None else s.current,
                           last := if s.last == Some(index) then None else s.last)
    {
      if currentWriterIndex == index { currentWriterIndex := -1; }
      if lastWriterIndex == index { lastWriterIndex := -1; }
    }

    /** What `remove` and `retire` both do once the gate was told. */
    method TakeOut(index: nat)
      requires Valid()
      modifies this
      ensures Valid() && View() == old(Apply(View(), policy, Event.TakeOut(index)))
    {
      ghost var s := View();
      EmptySlot(index);
      ForgetWriter(index);
      CheckShutdown();
      StepKeepsGood(s, policy, Event.TakeOut(index));
    }

    /** Rejects every waiter of the drained queues. */
    method RejectAll(waiting: seq<nat>)
      requires forall c | c in waiting :: c < |calls|
      requires forall c | 0 <= c < |calls| :: c in waiting <==> calls[c].status == Queued
      modifies this`calls
      ensures calls == RefuseQueued(old(calls))
    {
      ghost var before := calls;
      for i := 0 to |waiting|
        invariant |calls| == |before|
        invariant forall c | 0 <= c < |calls| ::
                    calls[c] == if c in waiting[..i] then before[c].(status := ShutDown) else before[c]
      {
        var c := waiting[i];
        assert c in waiting;
        calls := calls[c := calls[c].(status := ShutDown)];
      }
      assert waiting[..|waiting|] == waiting;
    }

    method DrainQueues()
      requires QueuesOk(View().desk)
      modifies this`verdictQueue, this`readerQueue, this`writerQueue, this`calls
      ensures View() == old(View()).(desk := Desk([], [], [], RefuseQueued(old(calls))))
    {
      var waiting := verdictQueue + readerQueue + writerQueue;
      WaitingAreCallers(View().desk, waiting);
      verdictQueue, readerQueue, writerQueue := [], [], [];
      RejectAll(waiting);
    }

    method CloseDoor()
      requires QueuesOk(View().desk)
      modifies this`gateOpen, this`stopped, this`verdictQueue, this`readerQueue, this`writerQueue, this`calls, this`drained
      ensures View() == old(ShuttingDown(View()))
    {
      gateOpen, stopped := true, true;
      DrainQueues();
      CheckShutdown();
    }

    method Shutdown()
      requires Valid()
      modifies this
      ensures Valid() && View() == old(Apply(View(), policy, Event.Shutdown))
    {
      ghost var s := View();
      CloseDoor();
      StepKeepsGood(s, policy, Event.Shutdown);
    }
  }

  lemma {:induction false} SpliceIsRemove(q: seq<nat>, at: nat)
    requires NoDuplicate(q) && at < |q|
    ensures q[..at] + q[at + 1..] == Remove(q, q[at])
  {
    if at == 0 {
      RemoveKeepsOrder(q, q[0]);
    } else {
      var rest := q[1..];
      SpliceIsRemove(rest, at - 1);
      assert q[0] != q[at] && rest[at - 1] == q[at];
      SpliceTail(q, at);
      assert Remove(q, q[at]) == [q[0]] + Remove(rest, q[at]);
    }
  }

  lemma SpliceTail(q: seq<nat>, at: nat)
    requires 0 < at < |q|
    ensures q[..at] + q[at + 1..] == [q[0]] + (q[1..][..at - 1] + q[1..][at..])
  {
    assert q[..at] == [q[0]] + q[1..][..at - 1] && q[at + 1..] == q[1..][at..];
  }

  lemma WaitingAreCallers(d: Desk, waiting: seq<nat>)
    requires QueuesOk(d) && waiting == d.verdicts + d.readers + d.writers
    ensures forall c | c in waiting :: c < |d.calls|
    ensures forall c | 0 <= c < |d.calls| :: c in waiting <==> d.calls[c].status == Queued
  {
    forall c
      ensures c in waiting <==> c in Queue(d, Verdicts) || c in Queue(d, Readers) || c in Queue(d, Writers)
    {
    }
  }
}
