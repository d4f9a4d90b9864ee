/**
  * What holds between a transaction's messages, its data and its log after every
  * event but the wild ones: the connection is inside its transaction, and what it
  * would commit is what the log means.
  */
module TransactionInvariant {
  import opened Basics
  import opened Savepoints
  import opened Transaction
  import opened TransactionData

  // ------------------------------------------------------------------ invariant

  /** The transaction's data may still be committed, or read by a statement. */
  predicate Live(s: State)
  {
    && !s.gone && s.conn.inTx && !Holds(s.own, Rollback)
    && (s.ending == Unset || Holds(s.user, Commit) || Holds(s.own, Commit))
  }

  predicate HoldsSaved(slot: Option<Slot>) { slot.Some? && IsSaved(slot.value.msg) }

  /**
    * What the connection still owes: a COMMIT has concluded it, a ROLLBACK that
    * fails has not, and the savepoint of the handle's own write is open until it
    * settles, even if its release was forgotten meanwhile.
    */
  function Owed(s: State): Conclude
  {
    if Holds(s.own, Commit) then Nothing
    else if Holds(s.user, Rollback) then s.past.forgot
    else if HoldsSaved(s.user) then ReleaseIt
    else s.pending
  }

  /** An undo is owed, and the write it is about did something. */
  predicate UndoMatters(owed: Conclude, log: seq<Logged>)
  {
    owed == UndoIt && LastIsWrite(log) && Last(log).succeeded
  }

  predicate FailedRollback(s: State) { Holds(s.user, Rollback) && HasEnded(s.user) && !s.user.value.ended.value }

  /** What a message's slot says of the log and of the pending conclusion. */
  predicate SlotsFit(s: State)
  {
    && (s.user.Some? && s.user.value.msg.Stmt? ==>
          && LastIsWrite(s.log) && Last(s.log).id == s.user.value.msg.id && !Last(s.log).abandoned
          && (OnWorker(s.user) ==> !Last(s.log).succeeded)
          && (s.own == None ==>
                if s.user.value.msg.saved then s.pending == ReleaseIt || (s.pending == Nothing && (s.gone || !s.past.tidy))
                else s.pending == Nothing))
    && (s.user.Some? && !s.user.value.msg.Stmt? ==> s.pending == Nothing)
    && (OnWorker(s.left) ==>
          && s.pending == UndoIt && s.left.value.msg.Stmt?
          && LastIsWrite(s.log) && Last(s.log).id == s.left.value.msg.id
          && Last(s.log).abandoned && !Last(s.log).succeeded)
    && (s.user.Some? ==> IsConsumers(s.user.value.msg) && !s.user.value.msg.Begin?)
    && (FailedRollback(s) && Live(s) ==>
          && !UndoMatters(s.past.forgot, s.log)
          && (s.past.tidy ==> s.past.forgot == Nothing))
    && (!s.begun ==> s.log == [] && s.pending == Nothing)
  }

  /** Whether a message that has ended makes its transaction end, when it settles. */
  predicate Kills(slot: Option<Slot>)
  {
    && HasEnded(slot)
    && match slot.value.msg
       case Stmt(_, _) => true
       case Commit => slot.value.ended.value
       case Rollback => slot.value.ended.value
       case _ => !slot.value.ended.value
  }

  predicate Inside(s: State)
  {
    && !s.conn.implicit
    && (!s.gone && (s.begun || HasEnded(s.own)) ==> s.reported == Some(s.conn.inTx))
    && (OnWorker(s.user) && (s.user.value.msg.Stmt? || s.user.value.msg.Mark?) ==> s.gone || s.conn.inTx)
    && (OnWorker(s.left) ==> s.gone || s.conn.inTx)
    && (s.begun && s.ending == Unset && !s.gone && !s.conn.inTx ==>
          Kills(s.user) || HasEnded(s.left) || HasEnded(s.own) || s.past.ousted)
    && (HasEnded(s.own) ==> s.user == None)
    && (s.phase.Beginning? && HasEnded(s.own) && s.own.value.ended.value ==> s.gone || s.conn.inTx)
  }

  /** The connection's data against the log, and whether the library's savepoint is above the consumer's. */
  predicate Kept(work: Db<Data>, owed: Conclude, tidy: bool, base: Data, log: seq<Logged>)
  {
    Related(work, owed, base, log) && (tidy ==> Tidy(work.stack, owed))
  }

  predicate DataFits(s: State)
  {
    && NoneOfTheLibrary(Meant(s.base, s.log).stack)
    && (Live(s) ==> Kept(s.conn.work, Owed(s), s.past.tidy, s.base, s.log))
    && Faithful(s)
    && (s.conn.landed ==> s.user == None || s.user.value.msg.Commit?)
  }

  /** Nothing is committed unless a COMMIT took effect, and then what the log means. */
  predicate Faithful(s: State)
  {
    s.conn.committed == if s.conn.landed then Meant(s.base, s.log).data else s.base
  }

  predicate Sound(s: State) { Inside(s) && SlotsFit(s) && DataFits(s) }

  predicate Good(s: State) { Clean(s) && Recorded(s) && Sound(s) }

  /**
    * The events after which a COMMIT need not mean the log: a statement or a
    * savepoint posted though the connection has left the transaction; a ROLLBACK
    * of the handle that fails on an open transaction having forgotten the undo of
    * a write that did something; such a write abandoned once the runner's COMMIT
    * was posted behind it.
    */
  predicate Wild(s: State, e: Event)
  {
    && !s.gone
    && match e
       case Post(msg) => (msg.Stmt? || msg.Mark?) && !s.conn.inTx
       case End(outcome) =>
         && outcome == Fails && OnWorker(s.user) && s.user.value.msg.Rollback?
         && s.conn.inTx && s.ending == Unset && UndoMatters(s.past.forgot, s.log)
       case Abandon =>
         && Holds(s.own, Commit) && s.conn.inTx && LastIsWrite(s.log) && Last(s.log).succeeded
       case _ => false
  }

  // --------------------------------------------------------- what moves no data

  /** A step that leaves the data, the log and what is owed alone keeps what relates them. */
  lemma SameData(s: State, t: State)
    requires DataFits(s)
    requires t.conn == s.conn && t.log == s.log && t.base == s.base && (t.past.tidy ==> s.past.tidy)
    requires Live(t) ==> Live(s) && Owed(t) == Owed(s)
    requires t.conn.landed ==> t.user == None || t.user.value.msg.Commit?
    ensures DataFits(t)
  {
  }

  /** What is owed can be forgotten: it is no undo that matters, and a savepoint it leaves is known of. */
  predicate MayForget(s: State) { !UndoMatters(Owed(s), s.log) && (s.past.tidy ==> Owed(s) == Nothing) }

  lemma NothingOwed(s: State, t: State)
    requires DataFits(s)
    requires t.conn == s.conn && t.log == s.log && t.base == s.base && (t.past.tidy ==> s.past.tidy)
    requires Live(t) ==> Live(s) && Owed(t) == Nothing && MayForget(s)
    requires t.conn.landed ==> t.user == None || t.user.value.msg.Commit?
    ensures DataFits(t)
  {
    if Live(t) { ForgottenIff(s.conn.work, Owed(s), s.base, s.log); }
  }

  /** What a step that is not about data leaves alone. */
  predicate Quiet(s: State, t: State)
  {
    && t.conn == s.conn && t.log == s.log && t.base == s.base && t.past == s.past && t.pending == s.pending
    && t.user == s.user && (t.begun <==> s.begun) && t.reported == s.reported && t.gone == s.gone
  }

  lemma QuietKeepsSound(s: State, e: Event)
    requires Good(s) && Enabled(s, e)
    requires e.BeginNow? || e.CallbackReturns? || e.Release?
    ensures Sound(Apply(s, e))
  {
    var t := Apply(s, e);
    assert Quiet(s, t);
    SameData(s, t);
  }

  lemma DeathKeepsSound(s: State, e: Event)
    requires Good(s) && Enabled(s, e)
    requires e.Judge? || e.Die? || e.CallbackFails?
    ensures Sound(Apply(s, e))
  {
    var t := Apply(s, e);
    assert Quiet(s, t);
    SameData(s, t);
  }

  lemma CrashKeepsSound(s: State)
    requires Good(s) && Enabled(s, Crash)
    ensures Sound(Apply(s, Crash))
  {
    var t := Apply(s, Crash);
    assert Faithful(s);
    assert t.log == s.log && t.base == s.base && t.gone && t.conn.committed == s.conn.committed;
  }

  // -------------------------------------------------------- the handle's messages

  lemma PostStatementKeepsData(s: State, id: nat, saved: bool)
    requires Good(s) && Enabled(s, Post(Stmt(id, saved))) && !Wild(s, Post(Stmt(id, saved)))
    ensures DataFits(Apply(s, Post(Stmt(id, saved))))
    ensures !s.gone ==> Arrived(s.conn, s.pending, Stmt(id, saved)) ==
                        s.conn.(work := Arrived(s.conn, s.pending, Stmt(id, saved)).work)
  {
    MeantNext(s.base, s.log, Write(id, false, false));
    assert Faithful(s) && !s.conn.landed;
    if !s.gone {
      StatementStaysKept(s, id, saved);
    }
  }

  lemma StatementStaysKept(s: State, id: nat, saved: bool)
    requires Inside(s) && DataFits(s) && MayPost(s, Stmt(id, saved)) && !s.gone && s.conn.inTx
    ensures var d, next := Arrived(s.conn, s.pending, Stmt(id, saved)), if saved then ReleaseIt else Nothing;
            d == s.conn.(work := d.work) && Kept(d.work, next, s.past.tidy, s.base, s.log + [Write(id, false, false)])
  {
    assert Live(s) && Kept(s.conn.work, s.pending, s.past.tidy, s.base, s.log);
    StatementArrives(s.conn, s.pending, s.base, s.log, id, saved);
  }

  lemma PostStatementFrame(s: State, id: nat, saved: bool)
    requires Clean(s) && Recorded(s) && Inside(s) && Enabled(s, Post(Stmt(id, saved))) && !Wild(s, Post(Stmt(id, saved)))
    requires !s.gone ==> Arrived(s.conn, s.pending, Stmt(id, saved)) ==
                         s.conn.(work := Arrived(s.conn, s.pending, Stmt(id, saved)).work)
    ensures Inside(Apply(s, Post(Stmt(id, saved)))) && SlotsFit(Apply(s, Post(Stmt(id, saved)))) && !s.conn.landed
  {
  }

  /** Nothing but a statement or a savepoint gets anything done outside a transaction. */
  lemma ArrivesOutside(c: Conn, conclude: Conclude, msg: Msg)
    requires !c.inTx && !IsSaved(msg)
    ensures Arrived(c, conclude, msg) == c
  {
  }

  lemma PostOtherKeepsSound(s: State, msg: Msg)
    requires Good(s) && Enabled(s, Post(msg)) && !Wild(s, Post(msg)) && !msg.Stmt? && !msg.Rollback?
    ensures Sound(Apply(s, Post(msg)))
  {
    var t := Apply(s, Post(msg));
    assert Owed(s) == s.pending && Owed(t) == Nothing && Faithful(s) && t.log == s.log && t.past == s.past;
    if !s.gone {
      if s.conn.inTx {
        assert Live(s) && Kept(s.conn.work, s.pending, s.past.tidy, s.base, s.log);
        ConcludedIsMeant(s.conn, s.pending, s.base, s.log);
        assert Kept(t.conn.work, Nothing, t.past.tidy, s.base, s.log);
      } else {
        ArrivesOutside(s.conn, s.pending, msg);
      }
      assert t.conn == s.conn.(work := t.conn.work);
    }
    assert DataFits(t);
    PostOtherFrame(s, msg);
  }

  lemma OpenIsConsumers(s: State, name: string)
    requires NoneOfTheLibrary(Meant(s.base, s.log).stack) && IsOpen(s, name)
    ensures !SameName(name, LIBRARY_SAVEPOINT)
  {
    var i :| 0 <= i < |Meant(s.base, s.log).stack| && Meant(s.base, s.log).stack[i].name == name;
    assert !IsLibrarys(Meant(s.base, s.log).stack[i]);
  }

  lemma PostOtherFrame(s: State, msg: Msg)
    requires Clean(s) && Recorded(s) && Inside(s) && SlotsFit(s) && Enabled(s, Post(msg)) && !Wild(s, Post(msg))
    requires NoneOfTheLibrary(Meant(s.base, s.log).stack) && !msg.Stmt? && !msg.Rollback?
    requires var t := Apply(s, Post(msg)); t.conn == s.conn.(work := t.conn.work)
    ensures Inside(Apply(s, Post(msg))) && SlotsFit(Apply(s, Post(msg)))
  {
    if msg.Drop? || msg.Back? { OpenIsConsumers(s, msg.name); }
    assert IsConsumers(msg);
  }

  lemma AbandonKeepsSound(s: State)
    requires Good(s) && Enabled(s, Abandon) && !Wild(s, Abandon)
    ensures Sound(Apply(s, Abandon))
  {
    var t := Apply(s, Abandon);
    AbandonFrame(s);
    AbandonMeans(s.base, s.log);
    if Live(t) {
      if s.own == None {
        assert Kept(s.conn.work, ReleaseIt, s.past.tidy, s.base, s.log);
        AbandonRelated(s.conn.work, s.base, s.log);
      } else {
        assert Kept(s.conn.work, Nothing, s.past.tidy, s.base, s.log);
        assert Undone(s.log) == [];
        assert Related(t.conn.work, Nothing, t.base, t.log);
      }
    }
  }

  lemma AbandonFrame(s: State)
    requires Clean(s) && Recorded(s) && Inside(s) && SlotsFit(s) && DataFits(s) && Enabled(s, Abandon)
    ensures Inside(Apply(s, Abandon)) && SlotsFit(Apply(s, Abandon)) && !s.conn.landed
    ensures Live(Apply(s, Abandon)) ==> Live(s)
    ensures Live(s) ==> Owed(s) == (if s.own == None then ReleaseIt else Nothing) && (s.own == None || Holds(s.own, Commit))
    ensures Owed(Apply(s, Abandon)) == if Holds(s.own, Commit) then Nothing else UndoIt
  {
  }

  lemma RefuseRollbackKeepsSound(s: State)
    requires Good(s) && Enabled(s, RefuseRollback)
    ensures Sound(Apply(s, RefuseRollback))
  {
    RefuseRollbackFrame(s);
    SameData(s, Apply(s, RefuseRollback));
  }

  /** The savepoint whose release is forgotten stays on top while its write is on the worker. */
  lemma RefuseRollbackFrame(s: State)
    requires Clean(s) && Recorded(s) && Inside(s) && SlotsFit(s) && Enabled(s, RefuseRollback)
    ensures var t := Apply(s, RefuseRollback);
            && Inside(t) && SlotsFit(t) && t.user == s.user && (t.past.tidy ==> s.past.tidy)
            && (Live(t) ==> Live(s) && Owed(t) == Owed(s))
            && t.conn == s.conn && t.log == s.log && t.base == s.base
  {
  }

  // ------------------------------------------------------------ settling

  lemma SettleKeepsSound(s: State)
    requires Good(s) && Enabled(s, Settle)
    ensures Sound(Apply(s, Settle))
  {
    var t := Apply(s, Settle);
    SettleFrame(s);
    SettleStaysInside(s);
    SettleKeepsSlots(s);
    SettleStaysLive(s);
    if Live(t) && Owed(t) != Owed(s) {
      NothingOwed(s, t);
    } else {
      SameData(s, t);
    }
  }

  lemma SettleFrame(s: State)
    requires Enabled(s, Settle)
    ensures var t := Apply(s, Settle); t == s.(user := None, done := t.done, ending := t.ending)
  {
    assert forall cond :: DieIf(s.(user := None), cond) == s.(user := None, ending := DieIf(s.(user := None), cond).ending);
  }

  lemma SettleStaysLive(s: State)
    requires Clean(s) && Recorded(s) && SlotsFit(s) && Enabled(s, Settle)
    ensures var t := Apply(s, Settle); Live(t) ==> Live(s) && (Owed(t) == Owed(s) || (Owed(t) == Nothing && MayForget(s)))
  {
    SettleFrame(s);
  }

  lemma SettleStaysInside(s: State)
    requires Clean(s) && Inside(s) && Enabled(s, Settle)
    ensures Inside(Apply(s, Settle))
  {
    SettleFrame(s);
  }

  lemma SettleKeepsSlots(s: State)
    requires SlotsFit(s) && Enabled(s, Settle)
    ensures SlotsFit(Apply(s, Settle))
  {
    SettleFrame(s);
  }

  // ------------------------------------------------------- the runner's messages

  lemma ConcludeKeepsSound(s: State)
    requires Good(s) && Enabled(s, Conclude)
    ensures Sound(Apply(s, Conclude))
  {
    var t := Apply(s, Conclude);
    if s.done || s.ending == Died || s.left.Some? {
      assert Quiet(s, t);
      SameData(s, t);
      assert t.left == s.left && t.own == s.own;
    } else if s.autoCommit {
      CommitPostedKeepsData(s);
      CommitPostedFrame(s);
    } else {
      RollbackPostedFrame(s);
      SameData(s, t);
    }
  }

  predicate PostsCommit(s: State)
  {
    !s.done && s.ending != Died && s.left == None && s.autoCommit
  }

  lemma OwedBehind(s: State)
    requires Clean(s) && Recorded(s) && SlotsFit(s) && Enabled(s, Conclude) && PostsCommit(s) && !s.gone && s.conn.inTx
    ensures Live(s)
    ensures s.pending == Owed(s) || (s.pending == Nothing && MayForget(s))
  {
    assert s.ending == Unset && s.own == None;
    assert Live(s);
    if Holds(s.user, Rollback) {
      assert !OnWorker(s.user) && !EndedWell(s.user);
      assert FailedRollback(s);
    }
  }

  lemma CommitPostedKeepsData(s: State)
    requires Good(s) && Enabled(s, Conclude) && PostsCommit(s)
    ensures DataFits(Apply(s, Conclude))
    ensures var t := Apply(s, Conclude); t.conn == s.conn.(work := t.conn.work)
  {
    var t := Apply(s, Conclude);
    assert t.pending == Nothing && t.log == s.log && t.base == s.base && t.past == s.past && t.user == s.user;
    assert Owed(t) == Nothing && Faithful(s) && s.own == None;
    if !s.gone {
      if s.conn.inTx {
        OwedBehind(s);
        assert Kept(s.conn.work, Owed(s), s.past.tidy, s.base, s.log);
        CommitConcludes(s.conn, s.pending, Owed(s), s.past.tidy, s.base, s.log);
      } else {
        ArrivesOutside(s.conn, s.pending, Commit);
      }
    }
  }

  /** COMMIT takes what is pending, or what a ROLLBACK forgot and did not need. */
  lemma CommitConcludes(c: Conn, pending: Conclude, owed: Conclude, tidy: bool, base: Data, log: seq<Logged>)
    requires c.inTx && !c.implicit && Kept(c.work, owed, tidy, base, log)
    requires pending == owed || (pending == Nothing && !UndoMatters(owed, log) && (tidy ==> owed == Nothing))
    ensures var d := Arrived(c, pending, Commit);
            d == c.(work := d.work) && Kept(d.work, Nothing, tidy, base, log)
  {
    if pending == owed {
      ConcludedIsMeant(c, owed, base, log);
    } else {
      ForgottenIff(c.work, owed, base, log);
    }
  }

  lemma CommitPostedFrame(s: State)
    requires Clean(s) && Recorded(s) && Inside(s) && SlotsFit(s) && Enabled(s, Conclude) && PostsCommit(s)
    requires var t := Apply(s, Conclude); t.conn == s.conn.(work := t.conn.work)
    ensures Inside(Apply(s, Conclude)) && SlotsFit(Apply(s, Conclude))
  {
  }

  lemma RollbackPostedFrame(s: State)
    requires Clean(s) && Inside(s) && SlotsFit(s) && Enabled(s, Conclude)
    requires !s.done && s.ending != Died && s.left == None && !s.autoCommit
    ensures var t := Apply(s, Conclude);
            && Inside(t) && SlotsFit(t) && !Live(t) && t.user == s.user && t.past.tidy == s.past.tidy
            && t.conn == s.conn && t.log == s.log && t.base == s.base
  {
  }

  lemma RepairFrame(s: State)
    requires Clean(s) && Inside(s) && SlotsFit(s) && Enabled(s, Repair)
    ensures var t := Apply(s, Repair);
            && Inside(t) && SlotsFit(t) && t.user == s.user && t.past.tidy == s.past.tidy
            && (Live(t) ==> Live(s) && Owed(t) == Owed(s))
            && t.conn == s.conn && t.log == s.log && t.base == s.base
  {
  }

  lemma RecordBeginKeepsSound(s: State)
    requires Good(s) && Enabled(s, Record) && s.own.value.msg.Begin?
    ensures Sound(Apply(s, Record))
  {
    var t := Apply(s, Record);
    assert Quiet(s, t.(begun := s.begun)) && s.user == None && s.left == None && t.own == None && !s.conn.landed;
    SameData(s, t);
  }

  lemma RecordEndKeepsSound(s: State)
    requires Good(s) && Enabled(s, Record) && IsEnd(s.own.value.msg)
    ensures Sound(Apply(s, Record))
  {
    var t := Apply(s, Record);
    RecordFrame(s);
    RecordLeaves(s);
    assert !Live(t);
    SameData(s, t);
  }

  lemma RecordLeaves(s: State)
    requires Clean(s) && Enabled(s, Record) && IsEnd(s.own.value.msg)
    ensures var t := Apply(s, Record);
            && t.left == s.left && t.log == s.log && t.base == s.base && t.pending == s.pending && t.past == s.past
            && t.begun && s.begun && t.reported == s.reported && (s.gone ==> t.gone)
    ensures Apply(s, Record).ending != Unset
  {
    if s.own.value.msg.Commit? { CommitRecordLeaves(s); } else { RollbackRecordLeaves(s); }
  }

  lemma CommitRecordLeaves(s: State)
    requires Enabled(s, Record) && s.own.value.msg.Commit?
    ensures var t := Apply(s, Record);
            && t.left == s.left && t.log == s.log && t.base == s.base && t.pending == s.pending && t.past == s.past
            && t.begun == s.begun && t.reported == s.reported && (s.gone ==> t.gone) && t.ending != Unset
  {
    var t, own := DoRecord(s), s.own.value;
    if own.ended.value {
      assert t == Finish(s.(own := None, done := true, ending := Committed));
    } else {
      assert t == Fail(s.(own := None));
    }
  }

  lemma RollbackRecordLeaves(s: State)
    requires Enabled(s, Record) && s.own.value.msg.Rollback?
    ensures var t := Apply(s, Record);
            && t.left == s.left && t.log == s.log && t.base == s.base && t.pending == s.pending && t.past == s.past
            && t.begun == s.begun && t.reported == s.reported && (s.gone ==> t.gone) && t.ending != Unset
  {
    var t, own := DoRecord(s), s.own.value;
    if own.ended.value {
      assert t == Finish(s.(own := None, done := true, ending := t.ending));
    } else if s.phase == Repairing {
      assert t == Finish(s.(own := None, gone := true));
    } else {
      assert t == Fail(s.(own := None));
    }
  }

  // ------------------------------------------------------ a message on the worker ends

  lemma EndFrame(s: State, outcome: Outcome)
    requires Enabled(s, End(outcome))
    ensures var t := Apply(s, End(outcome));
            && t.base == s.base && t.pending == s.pending && t.ending == s.ending && t.phase == s.phase
            && (t.begun <==> s.begun) && t.gone == s.gone && t.past == PastOf(s, outcome)
            && t.user == Ended(s.user, outcome == Succeeds) && t.own == Ended(s.own, outcome == Succeeds)
            && t.left == Ended(s.left, outcome == Succeeds)
  {
  }

  lemma EndStatementStaysInside(s: State, outcome: Outcome)
    requires Clean(s) && Inside(s) && SlotsFit(s) && Enabled(s, End(outcome)) && OnWire(s).Stmt?
    ensures Inside(Apply(s, End(outcome))) && SlotsFit(Apply(s, End(outcome)))
  {
  }

  lemma EndStatementStaysLive(s: State, outcome: Outcome)
    requires Clean(s) && Recorded(s) && Inside(s) && SlotsFit(s) && Enabled(s, End(outcome)) && OnWire(s).Stmt?
    ensures var t := Apply(s, End(outcome));
            && (Live(t) ==> Live(s)) && Owed(t) == Owed(s) && t.past.tidy == s.past.tidy
            && LastIsWrite(s.log) && !Last(s.log).succeeded && (Last(s.log).abandoned <==> Owed(s) == UndoIt)
            && OnWire(s).id == Last(s.log).id && !s.conn.landed && (s.gone || s.conn.inTx)
  {
  }

  lemma EndStatementKeepsData(s: State, outcome: Outcome)
    requires Good(s) && Enabled(s, End(outcome)) && OnWire(s).Stmt?
    ensures DataFits(Apply(s, End(outcome)))
  {
    var t := Apply(s, End(outcome));
    EndStatementStaysLive(s, outcome);
    EndFrame(s, outcome);
    assert Faithful(s);
    if outcome == Succeeds {
      SucceedMeans(s.base, s.log);
      assert t.conn == s.conn.(work := s.conn.work.(data := s.conn.work.data + [Last(s.log).id]));
      if Live(t) { StatementSucceeds(s.conn.work, Owed(s), s.base, s.log); }
    } else {
      assert t.log == s.log;
    }
  }

  lemma EndOperationFrame(s: State, outcome: Outcome)
    requires Clean(s) && Recorded(s) && Inside(s) && SlotsFit(s) && Enabled(s, End(outcome)) && IsOperation(OnWire(s))
    ensures var t := Apply(s, End(outcome));
            && (Live(t) ==> Live(s)) && Owed(t) == Owed(s) == Nothing && t.past.tidy == s.past.tidy
            && OnWorker(s.user) && IsConsumers(OnWire(s)) && !s.conn.landed
            && (outcome == Succeeds ==> !s.gone && s.conn.inTx)
            && t.conn == (if s.gone || outcome == Fails then s.conn
                          else if outcome == Leaves then Discard(s.conn) else Done(s.conn, OnWire(s)))
            && t.log == if outcome == Succeeds then LogDone(s.log, OnWire(s)) else s.log
  {
  }

  lemma EndOperationStaysInside(s: State, outcome: Outcome)
    requires Clean(s) && Inside(s) && SlotsFit(s) && Enabled(s, End(outcome)) && IsOperation(OnWire(s))
    ensures Inside(Apply(s, End(outcome))) && SlotsFit(Apply(s, End(outcome)))
  {
  }

  lemma EndOperationKeepsData(s: State, outcome: Outcome)
    requires Good(s) && Enabled(s, End(outcome)) && IsOperation(OnWire(s))
    ensures DataFits(Apply(s, End(outcome)))
  {
    var t, msg := Apply(s, End(outcome)), OnWire(s);
    EndOperationFrame(s, outcome);
    EndFrame(s, outcome);
    assert Faithful(s);
    if outcome == Succeeds {
      ConsumersStay(s.base, s.log, msg);
      OperationKeeps(s.conn, msg);
      if Live(t) { OperationSucceeds(s.conn, s.base, s.log, msg); }
    }
  }

  lemma OperationKeeps(c: Conn, msg: Msg)
    requires c.inTx && !c.implicit && IsOperation(msg)
    ensures Done(c, msg).committed == c.committed && Done(c, msg).landed == c.landed
  {
  }

  lemma EndOtherStaysInside(s: State, outcome: Outcome)
    requires Clean(s) && Inside(s) && SlotsFit(s) && Enabled(s, End(outcome))
    requires OnWire(s).Begin? || IsEnd(OnWire(s))
    ensures Inside(Apply(s, End(outcome)))
  {
  }

  lemma EndOtherKeepsSlots(s: State, outcome: Outcome)
    requires Clean(s) && Recorded(s) && SlotsFit(s) && Enabled(s, End(outcome)) && !Wild(s, End(outcome))
    requires OnWire(s).Begin? || IsEnd(OnWire(s))
    ensures SlotsFit(Apply(s, End(outcome))) && Apply(s, End(outcome)).log == s.log
  {
  }

  lemma EndOtherKeepsData(s: State, outcome: Outcome)
    requires Good(s) && Enabled(s, End(outcome)) && !Wild(s, End(outcome))
    requires OnWire(s).Begin? || IsEnd(OnWire(s))
    ensures DataFits(Apply(s, End(outcome)))
  {
    var t := Apply(s, End(outcome));
    EndFrame(s, outcome);
    assert t.log == s.log && Faithful(s);
    if OnWire(s).Begin? {
      BeginEnds(s, outcome);
    } else if outcome == Succeeds {
      EndSucceeds(s);
    } else {
      EndFails(s, outcome);
    }
  }

  lemma BeginEnds(s: State, outcome: Outcome)
    requires Good(s) && Enabled(s, End(outcome)) && OnWire(s).Begin?
    ensures DataFits(Apply(s, End(outcome)))
  {
    var t := Apply(s, End(outcome));
    assert OnWorker(s.own) && s.phase == Beginning;
    assert s.log == [] && s.pending == Nothing && s.user == None && s.left == None && !s.conn.landed && !s.begun;
    assert t.log == [] && Owed(t) == Nothing && Meant(s.base, []) == Db(s.base, []);
    assert Faithful(s);
    if outcome == Succeeds { assert t.conn.work == Db(s.base, []) && Consumer([]) == []; }
  }

  lemma EndSucceeds(s: State)
    requires Good(s) && Enabled(s, End(Succeeds)) && IsEnd(OnWire(s))
    ensures DataFits(Apply(s, End(Succeeds)))
  {
    var t := Apply(s, End(Succeeds));
    CommitsWhatIsLive(s);
    assert Faithful(s) && !t.conn.inTx && t.log == s.log && t.base == s.base;
    if OnWire(s).Commit? {
      assert Kept(s.conn.work, Nothing, s.past.tidy, s.base, s.log);
      assert t.conn.committed == s.conn.work.data == Meant(s.base, s.log).data;
    }
  }

  lemma CommitsWhatIsLive(s: State)
    requires Clean(s) && Recorded(s) && Inside(s) && SlotsFit(s) && Enabled(s, End(Succeeds)) && IsEnd(OnWire(s))
    ensures OnWire(s).Commit? ==> Live(s) && Owed(s) == Nothing && (s.user == None || s.user.value.msg.Commit?)
    ensures OnWire(s).Rollback? ==> !s.conn.landed
  {
  }

  lemma EndFails(s: State, outcome: Outcome)
    requires Good(s) && Enabled(s, End(outcome)) && IsEnd(OnWire(s)) && outcome != Succeeds
    ensures DataFits(Apply(s, End(outcome)))
  {
    var t := Apply(s, End(outcome));
    EndFailsFrame(s, outcome);
    assert Faithful(s);
    if Live(t) { assert Kept(s.conn.work, Owed(s), s.past.tidy, s.base, s.log); }
  }

  lemma EndFailsFrame(s: State, outcome: Outcome)
    requires Clean(s) && Recorded(s) && Enabled(s, End(outcome)) && IsEnd(OnWire(s)) && outcome != Succeeds
    ensures var t := Apply(s, End(outcome));
            && t.log == s.log && t.base == s.base && t.conn.committed == s.conn.committed && t.conn.landed == s.conn.landed
            && (Live(t) ==> Live(s) && Owed(t) == Owed(s) && t.conn == s.conn && (t.past.tidy ==> s.past.tidy))
            && (t.conn.landed ==> t.user == None || t.user.value.msg.Commit?)
  {
  }

  lemma EndKeepsSound(s: State, outcome: Outcome)
    requires Good(s) && Enabled(s, End(outcome)) && !Wild(s, End(outcome))
    ensures Sound(Apply(s, End(outcome)))
  {
    if OnWire(s).Stmt? {
      EndStatementStaysInside(s, outcome);
      EndStatementKeepsData(s, outcome);
    } else if IsOperation(OnWire(s)) {
      EndOperationStaysInside(s, outcome);
      EndOperationKeepsData(s, outcome);
    } else {
      EndOtherStaysInside(s, outcome);
      EndOtherKeepsSlots(s, outcome);
      EndOtherKeepsData(s, outcome);
    }
  }

  lemma PostKeepsSound(s: State, msg: Msg)
    requires Good(s) && Enabled(s, Post(msg)) && !Wild(s, Post(msg))
    ensures Sound(Apply(s, Post(msg)))
  {
    if msg.Stmt? {
      PostStatementKeepsData(s, msg.id, msg.saved);
      PostStatementFrame(s, msg.id, msg.saved);
    } else if msg.Rollback? {
      assert Owed(Apply(s, Post(Rollback))) == s.pending == Owed(s);
      SameData(s, Apply(s, Post(Rollback)));
    } else {
      PostOtherKeepsSound(s, msg);
    }
  }

  lemma StepKeepsSound(s: State, e: Event)
    requires Good(s) && Enabled(s, e) && !Wild(s, e)
    ensures Sound(Apply(s, e))
  {
    match e
    case Post(msg) => PostKeepsSound(s, msg);
    case RefuseRollback => RefuseRollbackKeepsSound(s);
    case End(outcome) => EndKeepsSound(s, outcome);
    case Settle => SettleKeepsSound(s);
    case Abandon => AbandonKeepsSound(s);
    case Conclude => ConcludeKeepsSound(s);
    case Record => if s.own.value.msg.Begin? { RecordBeginKeepsSound(s); } else { RecordEndKeepsSound(s); }
    case Repair =>
      RepairFrame(s);
      SameData(s, Apply(s, Repair));
    case Crash => CrashKeepsSound(s);
    case Judge => DeathKeepsSound(s, e);
    case Die => DeathKeepsSound(s, e);
    case CallbackFails => DeathKeepsSound(s, e);
    case _ => QuietKeepsSound(s, e);
  }

  lemma StepKeepsGood(s: State, e: Event)
    requires Good(s) && Enabled(s, e) && !Wild(s, e)
    ensures Good(Apply(s, e))
  {
    StepKeeps(s, e);
    StepKeepsSound(s, e);
  }
}
