/**
  * How a transaction ends, told by what its caller and the database see: each run
  * of events below is the only way on, and what it leaves is said without the
  * steps' own words.
  */
module TransactionOutcomes {
  import opened Basics
  import opened Savepoints
  import opened Transaction
  import opened TransactionData
  import opened TransactionInvariant
  import opened TransactionMeaning

  /** The connection serves the transaction, and none of its messages is under way or unsettled. */
  predicate Quiescent(s: State)
  {
    && Good(s) && s.begun && !s.gone && s.conn.inTx
    && s.user == None && s.own == None && s.left == None
  }

  /** The rows of base and nothing else are committed. */
  predicate NothingKept(t: State) { !t.conn.inTx && !t.conn.landed && t.conn.committed == t.base }

  /** The connection is out, with what the log means committed. */
  predicate AllKept(t: State)
  {
    !t.conn.inTx && t.conn.landed && t.conn.committed == Meant(t.base, t.log).data
  }

  lemma RunOne(s: State, e: Event)
    requires Enabled(s, e)
    ensures CanRun(s, [e]) && Run(s, [e]) == Apply(s, e)
  {
    assert [e][1..] == [];
    assert CanRun(Apply(s, e), []);
  }

  lemma RunThree(s: State, a: Event, b: Event, c: Event)
    requires Enabled(s, a) && Enabled(Apply(s, a), b) && Enabled(Apply(Apply(s, a), b), c)
    ensures CanRun(s, [a, b, c]) && Run(s, [a, b, c]) == Apply(Apply(Apply(s, a), b), c)
  {
    assert [a, b, c][1..] == [b, c] && [b, c][1..] == [c];
    RunOne(Apply(Apply(s, a), b), c);
    assert CanRun(Apply(s, a), [b, c]) && Run(Apply(s, a), [b, c]) == Run(Apply(Apply(s, a), b), [c]);
  }

  // ------------------------------------------------------------------------ the start

  /** BEGIN succeeds: the callback runs, the connection is in its transaction, and its data is what was committed. */
  lemma BeginRunsTheCallback(s: State)
    requires Init(s)
    ensures var events := [BeginNow, End(Succeeds), Record];
            && CanRun(s, events)
            && var t := Run(s, events);
               Working(t) && t.conn.committed == s.conn.committed && Meant(t.base, t.log) == Db(s.conn.committed, [])
  {
    InitIsGood(s);
    var t1 := Apply(s, BeginNow);
    StepKeepsGood(s, BeginNow);
    var t2 := Apply(t1, End(Succeeds));
    StepKeepsGood(t1, End(Succeeds));
    StepKeepsGood(t2, Record);
    RunThree(s, BeginNow, End(Succeeds), Record);
  }

  /** BEGIN fails: the callback never runs, and nothing is owed or kept. */
  lemma FailedBeginRunsNothing(s: State)
    requires Init(s) && !s.gone
    ensures var events := [BeginNow, End(Fails), Record];
            && CanRun(s, events)
            && var t := Run(s, events);
               && t.phase == Failing && t.ending == Died && NothingKept(t) && !t.gone
               && Enabled(t, Repair) && Apply(t, Repair) == t.(phase := Over)
  {
    var t1 := Apply(s, BeginNow);
    var t2 := Apply(t1, End(Fails));
    assert t2.own == Some(Slot(Begin, Some(false))) && t2.conn == s.conn;
    RunThree(s, BeginNow, End(Fails), Record);
  }

  // ------------------------------------------------------------------ the runner's end

  /** The callback returned, and neither it nor a signal has ended the transaction. */
  predicate Returning(s: State) { Quiescent(s) && s.phase == Closing && s.ending == Unset }

  /** The runner's COMMIT is on the worker, and takes what the log means. */
  lemma CommitIsPosted(s: State)
    requires Returning(s) && s.autoCommit
    ensures Enabled(s, Conclude)
    ensures var t := Apply(s, Conclude);
            && t == s.(phase := Concluding, own := Some(Slot(Commit, None)), pending := Nothing, conn := t.conn)
            && t.conn == s.conn.(work := t.conn.work) && t.conn.work.data == Meant(s.base, s.log).data
  {
    assert Live(s) && Kept(s.conn.work, s.pending, s.past.tidy, s.base, s.log);
    ConcludedIsMeant(s.conn, s.pending, s.base, s.log);
  }

  lemma OwnCommitSucceeds(s: State)
    requires s.phase == Concluding && s.own == Some(Slot(Commit, None)) && s.user == None && s.left == None
    requires !s.gone && s.conn.inTx && s.ending == Unset
    ensures Enabled(s, End(Succeeds)) && Enabled(Apply(s, End(Succeeds)), Record)
    ensures var t := Apply(Apply(s, End(Succeeds)), Record);
            && t.phase == Over && t.ending == Committed && t.log == s.log && t.base == s.base && !t.gone
            && !t.conn.inTx && t.conn.landed && t.conn.committed == s.conn.work.data
  {
  }

  /** The automatic COMMIT, if it succeeds, keeps all the log means. */
  lemma AutoCommitKeepsAll(s: State)
    requires Returning(s) && s.autoCommit
    ensures var events := [Conclude, End(Succeeds), Record];
            && CanRun(s, events)
            && var t := Run(s, events);
               t.phase == Over && t.ending == Committed && AllKept(t) && t.log == s.log && t.base == s.base && !t.gone
  {
    CommitIsPosted(s);
    OwnCommitSucceeds(Apply(s, Conclude));
    RunThree(s, Conclude, End(Succeeds), Record);
  }

  /** Without automatic commit the end is a ROLLBACK, and keeps nothing. */
  lemma AutoRollbackKeepsNothing(s: State)
    requires Returning(s) && !s.autoCommit
    ensures var events := [Conclude, End(Succeeds), Record];
            && CanRun(s, events)
            && var t := Run(s, events);
               t.phase == Over && t.ending == RolledBackEnd && NothingKept(t) && t.base == s.base && !t.gone
  {
    assert Faithful(s) && !s.conn.landed;
    var t1 := Apply(s, Event.Conclude);
    assert t1.own == Some(Slot(Rollback, None)) && t1.conn == s.conn && t1.base == s.base && t1.ending == Unset;
    var t2 := Apply(t1, End(Succeeds));
    assert t2.own == Some(Slot(Rollback, Some(true))) && t2.conn == Discard(s.conn);
    RunThree(s, Event.Conclude, End(Succeeds), Record);
  }

  /** The callback failed: one ROLLBACK, and the transaction rejects with nothing kept and its worker still good. */
  lemma FailureKeepsNothing(s: State)
    requires Quiescent(s) && s.phase == Running && s.ending == Unset
    ensures Enabled(s, CallbackFails)
    ensures var t0, events := Apply(s, CallbackFails), [Repair, End(Succeeds), Record];
            && CanRun(t0, events)
            && var t := Run(t0, events);
               t.phase == Over && t.ending == Died && NothingKept(t) && t.base == s.base && !t.gone
  {
    assert Faithful(s) && !s.conn.landed;
    var t0 := Apply(s, CallbackFails);
    assert t0 == s.(phase := Failing, ending := Died);
    assert s.reported == Some(true) && !s.done;
    var t1 := Apply(t0, Repair);
    assert t1.own == Some(Slot(Rollback, None)) && t1.conn == s.conn && t1.base == s.base && t1.phase == Repairing;
    var t2 := Apply(t1, End(Succeeds));
    assert t2.own == Some(Slot(Rollback, Some(true))) && t2.conn == Discard(s.conn);
    RunThree(t0, Repair, End(Succeeds), Record);
  }

  /** That ROLLBACK fails on the open transaction: the worker is removed, and nothing is kept. */
  lemma FailedRepairEvicts(s: State)
    requires Good(s) && s.phase == Repairing && OnWorker(s.own) && !s.gone && s.conn.inTx
    requires s.user == None && s.left == None
    ensures Enabled(s, End(Fails)) && Enabled(Apply(s, End(Fails)), Record)
    ensures var t := Apply(Apply(s, End(Fails)), Record);
            t.phase == Over && t.gone && !t.conn.landed && t.conn.committed == s.base
  {
    assert Faithful(s) && !s.conn.landed;
    var t1 := Apply(s, End(Fails));
    assert t1.own == Some(Slot(Rollback, Some(false))) && t1.conn == s.conn;
  }

  // ------------------------------------------------------------------ the handle's end

  /** The callback runs and the handle may post. */
  predicate Working(s: State) { Quiescent(s) && s.phase == Running && s.ending == Unset }

  lemma HandleCommitIsPosted(s: State)
    requires Working(s)
    ensures Enabled(s, Post(Commit))
    ensures var t := Apply(s, Post(Commit));
            && t == s.(user := Some(Slot(Commit, None)), pending := Nothing, conn := t.conn)
            && t.conn == s.conn.(work := t.conn.work) && t.conn.work.data == Meant(s.base, s.log).data
  {
    assert Live(s) && Kept(s.conn.work, s.pending, s.past.tidy, s.base, s.log);
    ConcludedIsMeant(s.conn, s.pending, s.base, s.log);
  }

  lemma HandleCommitSucceeds(s: State)
    requires s.phase == Running && s.user == Some(Slot(Commit, None)) && s.own == None && s.left == None
    requires !s.gone && s.conn.inTx && s.ending == Unset
    ensures Enabled(s, End(Succeeds)) && Enabled(Apply(s, End(Succeeds)), Settle)
    ensures var t := Apply(Apply(s, End(Succeeds)), Settle);
            && t.phase == Running && t.ending == Committed && t.log == s.log && t.base == s.base && !t.gone
            && !t.conn.inTx && t.conn.landed && t.conn.committed == s.conn.work.data
  {
  }

  /** `commit()` that succeeds: committed, and all of it kept. */
  lemma CommitKeepsAll(s: State)
    requires Working(s)
    ensures var events := [Post(Commit), End(Succeeds), Settle];
            && CanRun(s, events)
            && var t := Run(s, events);
               t.phase == Running && t.ending == Committed && AllKept(t) && t.log == s.log && t.base == s.base && !t.gone
  {
    HandleCommitIsPosted(s);
    HandleCommitSucceeds(Apply(s, Post(Commit)));
    RunThree(s, Post(Commit), End(Succeeds), Settle);
  }

  /** `rollback()` that succeeds: rolled back, and nothing kept. */
  lemma RollbackKeepsNothing(s: State)
    requires Working(s)
    ensures var events := [Post(Rollback), End(Succeeds), Settle];
            && CanRun(s, events)
            && var t := Run(s, events);
               t.phase == Running && t.ending == RolledBackEnd && NothingKept(t) && t.base == s.base && !t.gone
  {
    assert Faithful(s) && !s.conn.landed;
    var t1 := Apply(s, Post(Rollback));
    assert t1.user == Some(Slot(Rollback, None)) && t1.conn == s.conn && t1.base == s.base && t1.ending == Unset;
    var t2 := Apply(t1, End(Succeeds));
    assert t2.user == Some(Slot(Rollback, Some(true))) && t2.conn == Discard(s.conn);
    RunThree(s, Post(Rollback), End(Succeeds), Settle);
  }

  /** What the handle ended the runner does not end again. */
  lemma EndedIsConcluded(s: State)
    requires Good(s) && s.phase == Closing && s.done && WireFree(s)
    ensures Enabled(s, Conclude) && Apply(s, Conclude) == s.(phase := Over)
  {
  }

  // ------------------------------------------------------------- statements in between

  lemma PostEndSettle(s: State, msg: Msg, outcome: Outcome)
    requires Enabled(s, Post(msg)) && Enabled(Apply(s, Post(msg)), End(outcome))
    requires Enabled(Apply(Apply(s, Post(msg)), End(outcome)), Settle)
    requires Good(s) && !Wild(s, Post(msg)) && !Wild(Apply(s, Post(msg)), End(outcome))
    ensures Good(Apply(Apply(Apply(s, Post(msg)), End(outcome)), Settle))
  {
    StepKeepsGood(s, Post(msg));
    StepKeepsGood(Apply(s, Post(msg)), End(outcome));
    StepKeepsGood(Apply(Apply(s, Post(msg)), End(outcome)), Settle);
  }

  /** A message of the handle's that is no end succeeds or fails alone: it is over, and only a failed savepoint operation is a death. */
  lemma StatementLeavesItOpen(s: State, msg: Msg, outcome: Outcome)
    requires Working(s) && MayPost(s, msg) && !IsEnd(msg) && outcome != Leaves
    requires outcome == Succeeds ==> CanSucceed(Apply(s, Post(msg)).conn, msg)
    ensures var events := [Post(msg), End(outcome), Settle];
            && CanRun(s, events)
            && var t := Run(s, events);
               && Good(t) && t.phase == Running && t.conn.inTx && !t.gone && t.user == None
               && t.ending == if msg.Stmt? || outcome == Succeeds then Unset else Died
  {
    PostStaysInside(s, msg);
    EndStaysInside(Apply(s, Post(msg)), msg, outcome);
    PostEndSettle(s, msg, outcome);
    RunThree(s, Post(msg), End(outcome), Settle);
  }

  lemma PostStaysInside(s: State, msg: Msg)
    requires Working(s) && MayPost(s, msg) && !IsEnd(msg)
    ensures var t := Apply(s, Post(msg));
            && t.user == Some(Slot(msg, None)) && t.conn.inTx && !t.conn.implicit
            && t == s.(user := t.user, conn := t.conn, pending := t.pending, log := t.log)
  {
    assert Live(s) && Kept(s.conn.work, s.pending, s.past.tidy, s.base, s.log);
    ConcludedIsMeant(s.conn, s.pending, s.base, s.log);
  }

  lemma EndStaysInside(s: State, msg: Msg, outcome: Outcome)
    requires s.user == Some(Slot(msg, None)) && s.own == None && s.left == None && !msg.Begin? && !IsEnd(msg)
    requires s.conn.inTx && !s.conn.implicit && !s.gone && s.ending == Unset && s.phase == Running && s.begun
    requires outcome != Leaves && (outcome == Succeeds ==> CanSucceed(s.conn, msg))
    ensures Enabled(s, End(outcome)) && Enabled(Apply(s, End(outcome)), Settle)
    ensures var t := Apply(Apply(s, End(outcome)), Settle);
            && t.phase == Running && t.conn.inTx && !t.gone && t.user == None
            && t.ending == if msg.Stmt? || outcome == Succeeds then Unset else Died
  {
  }

  /** A statement whose end leaves the transaction is its death. */
  lemma LeavingIsADeath(s: State, id: nat, saved: bool)
    requires Working(s)
    ensures var events := [Post(Stmt(id, saved)), End(Leaves), Settle];
            && CanRun(s, events)
            && var t := Run(s, events); t.ending == Died && NothingKept(t)
  {
    assert Faithful(s) && !s.conn.landed;
    PostStaysInside(s, Stmt(id, saved));
    PostKeepsCommitted(s, Stmt(id, saved));
    var t1 := Apply(s, Post(Stmt(id, saved)));
    var t2 := Apply(t1, End(Leaves));
    assert t2.conn == Discard(t1.conn) && t2.reported == Some(false);
    RunThree(s, Post(Stmt(id, saved)), End(Leaves), Settle);
  }

  lemma PostKeepsCommitted(s: State, msg: Msg)
    requires Working(s) && MayPost(s, msg) && !IsEnd(msg)
    ensures Apply(s, Post(msg)).conn.committed == s.conn.committed && !Apply(s, Post(msg)).conn.landed
  {
    assert Live(s) && Kept(s.conn.work, s.pending, s.past.tidy, s.base, s.log);
    ConcludedIsMeant(s.conn, s.pending, s.base, s.log);
  }

  // --------------------------------------------------------------- what a message means

  lemma {:induction false} WriteMeans(base: Data, log: seq<Logged>, id: nat, succeeded: bool)
    ensures var m := Meant(base, log);
            Meant(base, log + [Write(id, succeeded, false)]) == if succeeded then m.(data := m.data + [id]) else m
    ensures SucceedLast(log + [Write(id, false, false)]) == log + [Write(id, true, false)]
    ensures AbandonLast(log + [Write(id, succeeded, false)]) == log + [Write(id, succeeded, true)]
    ensures Meant(base, log + [Write(id, succeeded, true)]) == Meant(base, log)
  {
    assert (log + [Write(id, succeeded, false)])[..|log|] == log;
    assert (log + [Write(id, succeeded, true)])[..|log|] == log;
  }

  /** A statement that succeeds adds what it does, behind everything before it; one that fails adds nothing. */
  lemma StatementCounts(s: State, id: nat, saved: bool, outcome: Outcome)
    requires Working(s) && outcome != Leaves
    ensures var events := [Post(Stmt(id, saved)), End(outcome), Settle];
            && CanRun(s, events)
            && var m, n := Meant(s.base, s.log), Meant(Run(s, events).base, Run(s, events).log);
               n == if outcome == Succeeds then m.(data := m.data + [id]) else m
  {
    StatementLeavesItOpen(s, Stmt(id, saved), outcome);
    WriteMeans(s.base, s.log, id, false);
    WriteMeans(s.base, s.log, id, true);
    RunThree(s, Post(Stmt(id, saved)), End(outcome), Settle);
    PostStaysInside(s, Stmt(id, saved));
    StatementLogs(Apply(s, Post(Stmt(id, saved))), s.log, id, outcome);
  }

  lemma StatementLogs(t: State, before: seq<Logged>, id: nat, outcome: Outcome)
    requires t.user.Some? && t.user.value.ended == None && t.user.value.msg.Stmt? && t.own == None && t.left == None
    requires !t.gone && t.conn.inTx && outcome != Leaves && t.log == before + [Write(id, false, false)]
    ensures Enabled(t, End(outcome)) && Enabled(Apply(t, End(outcome)), Settle)
    ensures var u := Apply(Apply(t, End(outcome)), Settle);
            u.base == t.base && u.log == if outcome == Succeeds then SucceedLast(t.log) else t.log
  {
  }

  /** A statement abandoned by its own signal while it runs counts for nothing, whether it then succeeds or fails. */
  lemma AbandonedCountsForNothing(s: State, id: nat, outcome: Outcome)
    requires Working(s) && outcome != Leaves
    ensures var t1 := Apply(s, Post(Stmt(id, true)));
            && Enabled(t1, Abandon)
            && var events := [Abandon, End(outcome), Judge];
               && CanRun(t1, events)
               && var t := Run(t1, events);
                  Working(t) && Meant(t.base, t.log) == Meant(s.base, s.log) && Visible(t) == Meant(s.base, s.log).data
  {
    var t1 := Apply(s, Post(Stmt(id, true)));
    AbandonedIsLeft(s, id);
    var t2 := Apply(t1, Abandon);
    LeftLogs(t2, s.log, id, outcome);
    RunThree(t1, Abandon, End(outcome), Judge);
    var t3 := Apply(t2, End(outcome));
    StepKeepsGood(t2, End(outcome));
    StepKeepsGood(t3, Judge);
    WriteMeans(s.base, s.log, id, outcome == Succeeds);
    VisibleIsMeant(Apply(t3, Judge));
  }

  lemma AbandonedIsLeft(s: State, id: nat)
    requires Working(s)
    ensures var t1 := Apply(s, Post(Stmt(id, true)));
            && Enabled(t1, Abandon)
            && var t2 := Apply(t1, Abandon);
               && Good(t2) && t2.user == None && t2.own == None && t2.left == Some(Slot(Stmt(id, true), None))
               && !t2.gone && t2.conn.inTx && t2.ending == Unset && t2.begun && t2.phase == Running && t2.base == s.base
               && t2.log == s.log + [Write(id, false, true)]
  {
    var t1 := Apply(s, Post(Stmt(id, true)));
    StepKeepsGood(s, Post(Stmt(id, true)));
    PostStaysInside(s, Stmt(id, true));
    WriteMeans(s.base, s.log, id, false);
    StepKeepsGood(t1, Abandon);
  }

  lemma LeftLogs(t: State, before: seq<Logged>, id: nat, outcome: Outcome)
    requires t.user == None && t.own == None && t.left.Some? && t.left.value.ended == None && t.left.value.msg.Stmt?
    requires !t.gone && t.conn.inTx && outcome != Leaves && t.ending == Unset && t.begun && t.phase == Running
    requires t.log == before + [Write(id, false, true)]
    ensures Enabled(t, End(outcome)) && Enabled(Apply(t, End(outcome)), Judge)
    ensures var u := Apply(Apply(t, End(outcome)), Judge);
            && u.base == t.base && u.log == before + [Write(id, outcome == Succeeds, true)]
            && u.left == None && u.user == None && u.own == None && u.ending == Unset && u.conn.inTx && !u.gone
            && u.phase == Running && u.begun
  {
  }

  /** The consumer's savepoint operation that succeeds does to what is meant what SQLite does; one that fails does nothing. */
  lemma OperationMeans(s: State, msg: Msg, outcome: Outcome)
    requires Working(s) && MayPost(s, msg) && IsOperation(msg) && outcome != Leaves
    requires outcome == Succeeds ==> CanSucceed(Apply(s, Post(msg)).conn, msg)
    ensures var events := [Post(msg), End(outcome), Settle];
            && CanRun(s, events)
            && var m, n := Meant(s.base, s.log), Meant(Run(s, events).base, Run(s, events).log);
               && (outcome == Fails ==> n == m)
               && (outcome == Succeeds && msg.Mark? ==> n == SqlSavepoint(m, msg.name))
               && (outcome == Succeeds && msg.Drop? ==> Some(n) == SqlRelease(m, msg.name))
               && (outcome == Succeeds && msg.Back? ==> Some(n) == SqlRollbackTo(m, msg.name))
  {
    PostStaysInside(s, msg);
    OperationLogs(Apply(s, Post(msg)), msg, outcome);
    RunThree(s, Post(msg), End(outcome), Settle);
    OperatedMeans(s.base, s.log, msg);
    if !msg.Mark? { NameIsOpen(s, msg.name); }
  }

  lemma {:induction false} OperatedMeans(base: Data, log: seq<Logged>, msg: Msg)
    requires IsOperation(msg) && (!msg.Mark? ==> Find(Meant(base, log).stack, msg.name) >= 0)
    ensures var m, n := Meant(base, log), Meant(base, LogDone(log, msg));
            && (msg.Mark? ==> n == SqlSavepoint(m, msg.name))
            && (msg.Drop? ==> Some(n) == SqlRelease(m, msg.name))
            && (msg.Back? ==> Some(n) == SqlRollbackTo(m, msg.name))
  {
    MeantOperated(base, log, msg);
  }

  lemma NameIsOpen(s: State, name: string)
    requires IsOpen(s, name)
    ensures Find(Meant(s.base, s.log).stack, name) >= 0
  {
    var stack := Meant(s.base, s.log).stack;
    var i :| 0 <= i < |stack| && stack[i].name == name;
    assert SameName(stack[i].name, name);
  }

  lemma OperationLogs(t: State, msg: Msg, outcome: Outcome)
    requires t.user == Some(Slot(msg, None)) && IsOperation(msg) && t.own == None && t.left == None && !t.gone && t.conn.inTx
    requires outcome != Leaves && (outcome == Succeeds ==> CanSucceed(t.conn, msg))
    ensures Enabled(t, End(outcome)) && Enabled(Apply(t, End(outcome)), Settle)
    ensures var u := Apply(Apply(t, End(outcome)), Settle);
            u.base == t.base && u.log == if outcome == Succeeds then LogDone(t.log, msg) else t.log
  {
  }
}
