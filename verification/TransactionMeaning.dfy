/**
  * What a COMMIT makes visible: the statements that succeeded and were not
  * abandoned, in post order, between the consumer's savepoint operations. That
  * holds of every run without a wild event, and every wild event can break it.
  */
module TransactionMeaning {
  import opened Basics
  import opened Savepoints
  import opened Transaction
  import opened TransactionData
  import opened TransactionInvariant

  // ------------------------------------------------------------------- theorems

  predicate TameRun(s: State, events: seq<Event>)
    requires CanRun(s, events)
    decreases |events|
  {
    events != [] ==> !Wild(s, events[0]) && TameRun(Apply(s, events[0]), events[1..])
  }

  lemma StepKeepsBase(s: State, e: Event)
    requires Enabled(s, e)
    ensures Apply(s, e).base == s.base
  {
    match e
    case Settle => assert DoSettle(s).base == s.base;
    case Record => assert DoRecord(s).base == s.base;
    case Conclude => assert DoConclude(s).base == s.base;
    case _ =>
  }

  lemma {:induction false} RunKeepsGood(s: State, events: seq<Event>)
    requires Good(s) && CanRun(s, events) && TameRun(s, events)
    ensures Good(Run(s, events)) && Run(s, events).base == s.base
    decreases |events|
  {
    if events != [] {
      StepKeepsGood(s, events[0]);
      StepKeepsBase(s, events[0]);
      RunKeepsGood(Apply(s, events[0]), events[1..]);
    }
  }

  lemma InitIsGood(s: State)
    requires Init(s)
    ensures Good(s)
  {
    InitKeeps(s);
    assert Meant(s.base, s.log) == Db(s.base, []);
  }

  /**
    * What a run commits: nothing unless a COMMIT took effect, and then what the
    * log means, that is every posted statement that succeeded and was not
    * abandoned, in post order, between the consumer's savepoint operations.
    */
  lemma CommitMeaning(s: State, events: seq<Event>)
    requires Init(s) && CanRun(s, events) && TameRun(s, events)
    ensures var t := Run(s, events);
            t.conn.committed == if t.conn.landed then Meant(s.base, t.log).data else s.base
  {
    InitIsGood(s);
    RunKeepsGood(s, events);
  }

  /**
    * While the handle can post: the connection is in its transaction, unless an end
    * of the handle's failed having left it; a message posted now finds the data and
    * the consumer's savepoints the log means, and no savepoint of the library's,
    * unless a ROLLBACK of the handle came to nothing having forgotten one.
    */
  lemma PostsStayInside(s: State, events: seq<Event>, msg: Msg)
    requires Init(s) && CanRun(s, events) && TameRun(s, events)
    requires MayPost(Run(s, events), msg) && !Run(s, events).gone
    ensures var t := Run(s, events); t.conn.inTx || t.past.ousted
    ensures var t := Run(s, events);
            t.conn.inTx ==>
              var d := Concluded(t.conn, t.pending);
              && d == t.conn.(work := d.work)
              && d.work.data == Meant(s.base, t.log).data && Consumer(d.work.stack) == Meant(s.base, t.log).stack
              && (t.past.tidy ==> d.work == Meant(s.base, t.log))
  {
    InitIsGood(s);
    RunKeepsGood(s, events);
    var t := Run(s, events);
    if t.conn.inTx {
      assert Kept(t.conn.work, t.pending, t.past.tidy, t.base, t.log);
      ConcludedIsMeant(t.conn, t.pending, s.base, t.log);
      var d := Concluded(t.conn, t.pending);
      if t.past.tidy { ConsumerOfNone(d.work.stack); }
    }
  }

  // ------------------------------------------------- every wild event can break it

  /** Some way on from here, with nothing wild on it, commits what the log does not mean. */
  ghost predicate MayBreak(s: State)
  {
    exists events :: CanRun(s, events) && TameRun(s, events) && !Faithful(Run(s, events))
  }

  lemma BreaksNow(s: State)
    requires !Faithful(s)
    ensures MayBreak(s)
  {
    assert CanRun(s, []) && Run(s, []) == s;
  }

  lemma BreaksAfter(s: State, e: Event)
    requires Enabled(s, e) && !Wild(s, e) && MayBreak(Apply(s, e))
    ensures MayBreak(s)
  {
    var events :| CanRun(Apply(s, e), events) && TameRun(Apply(s, e), events) && !Faithful(Run(Apply(s, e), events));
    assert ([e] + events)[1..] == events;
    assert CanRun(s, [e] + events) && TameRun(s, [e] + events);
    assert Run(s, [e] + events) == Run(Apply(s, e), events);
  }

  /** A handle that may post though its connection has left the transaction. */
  predicate Outside(s: State)
  {
    && MayPost(s, Commit) && !s.gone && !s.conn.inTx
    && !s.conn.landed && s.conn.committed == s.base
  }

  lemma StatementOutside(s: State, id: nat)
    requires Outside(s)
    ensures MayBreak(Apply(s, Post(Stmt(id, false))))
  {
    var t := Apply(s, Post(Stmt(id, false)));
    ArrivesOutside(s.conn, s.pending, Stmt(id, false));
    assert t.conn == s.conn;
    var u := Apply(t, End(Succeeds));
    assert u.conn.committed == s.base + [id];
    BreaksNow(u);
    BreaksAfter(t, End(Succeeds));
  }

  lemma OnlySavepointReleased(c: Conn, name: string)
    requires c.inTx && c.implicit && |c.work.stack| == 1 && c.work.stack[0].name == name
    ensures ReleaseSavepoint(c, name) == Conn(c.work.data, false, false, Db(c.work.data, []), c.landed)
    ensures CanSucceed(c, Drop(name))
  {
    assert Find(c.work.stack, name) == 0;
  }

  lemma ConcludesOutside(c: Conn, conclude: Conclude)
    requires !c.inTx
    ensures Concluded(c, conclude) == c
  {
  }

  lemma SavedStatementOutside(s: State, id: nat)
    requires Outside(s)
    ensures MayBreak(Apply(s, Post(Stmt(id, true))))
  {
    ConcludesOutside(s.conn, s.pending);
    var t := Apply(s, Post(Stmt(id, true)));
    assert t.conn == Conn(s.base, true, true, Db(s.base, [Frame(LIBRARY_SAVEPOINT, s.base)]), false);
    OwnTransactionWritten(t, id);
  }

  /** The transaction its own savepoint began. */
  function OwnTransaction(base: Data, data: Data): Conn
  {
    Conn(base, true, true, Db(data, [Frame(LIBRARY_SAVEPOINT, base)]), false)
  }

  lemma OwnTransactionWritten(t: State, id: nat)
    requires t.user == Some(Slot(Stmt(id, true), None)) && t.own == None && t.left == None && t.pending == ReleaseIt
    requires t.begun && t.ending == Unset && !t.gone && t.conn == OwnTransaction(t.base, t.base)
    ensures MayBreak(t)
  {
    var u := Apply(t, End(Succeeds));
    assert u.conn == OwnTransaction(t.base, t.base + [id]) && u.reported == Some(true);
    var v := Apply(u, Settle);
    assert v == u.(user := None);
    OwnTransactionReleased(v, id);
    BreaksAfter(u, Settle);
    BreaksAfter(t, End(Succeeds));
  }

  lemma OwnTransactionReleased(s: State, id: nat)
    requires MayPost(s, Commit) && !s.gone && s.pending == ReleaseIt
    requires s.conn == OwnTransaction(s.base, s.base + [id])
    ensures MayBreak(s)
  {
    OnlySavepointReleased(s.conn, LIBRARY_SAVEPOINT);
    var t := Apply(s, Post(Commit));
    assert t.conn.committed == s.base + [id] && !t.conn.landed && t.base == s.base;
    BreaksNow(t);
    BreaksAfter(s, Post(Commit));
  }

  /** A consumer's savepoint outside begins a transaction of its own, which its release commits. */
  lemma SavepointOutside(s: State, name: string)
    requires Outside(s) && IsFresh(s, name)
    ensures MayBreak(Apply(s, Post(Mark(name))))
  {
    ConcludesOutside(s.conn, s.pending);
    var t := Apply(s, Post(Mark(name)));
    assert t.conn == s.conn && t.pending == Nothing;
    var u := Apply(t, End(Succeeds));
    assert u.conn == Conn(s.base, true, true, Db(s.base, [Frame(name, s.base)]), false) && u.log == s.log + [Opened(name)];
    var v := Apply(u, Settle);
    assert v.conn == u.conn && v.log == u.log && v.pending == Nothing && MayPost(v, Commit) && !v.gone && v.base == s.base;
    MarkedAndWritten(v, s.log, name);
    BreaksAfter(u, Settle);
    BreaksAfter(t, End(Succeeds));
  }

  lemma MarkedAndWritten(s: State, before: seq<Logged>, name: string)
    requires MayPost(s, Commit) && !s.gone && s.pending == Nothing && s.log == before + [Opened(name)]
    requires s.conn == Conn(s.base, true, true, Db(s.base, [Frame(name, s.base)]), false)
    ensures MayBreak(s)
  {
    var t := Apply(s, Post(Stmt(0, false)));
    assert t.conn == s.conn && t.log == s.log + [Write(0, false, false)];
    var u := Apply(t, End(Succeeds));
    var d := s.conn.(work := Db(s.base + [0], s.conn.work.stack));
    assert u.conn == d && u.log == SucceedLast(t.log);
    var v := Apply(u, Settle);
    assert v.conn == d && v.log == u.log && v.pending == Nothing && MayPost(v, Commit);
    StillOpen(s.base, before, name);
    assert IsOpen(v, name);
    var w := Apply(v, Post(Drop(name)));
    assert w.conn == d;
    OnlySavepointReleased(d, name);
    var x := Apply(w, End(Succeeds));
    assert x.conn.committed == s.base + [0] && !x.conn.landed && x.base == s.base;
    BreaksNow(x);
    BreaksAfter(w, End(Succeeds));
    BreaksAfter(v, Post(Drop(name)));
    BreaksAfter(u, Settle);
    BreaksAfter(t, End(Succeeds));
    BreaksAfter(s, Post(Stmt(0, false)));
  }

  lemma StillOpen(base: Data, before: seq<Logged>, name: string)
    ensures var stack := Meant(base, SucceedLast(before + [Opened(name)] + [Write(0, false, false)])).stack;
            |stack| > 0 && stack[|stack| - 1].name == name
  {
    SucceedMeans(base, before + [Opened(name)] + [Write(0, false, false)]);
    MeantNext(base, before + [Opened(name)], Write(0, false, false));
    MeantOperated(base, before, Mark(name));
  }

  /** What a wild ROLLBACK that fails finds: data a later COMMIT must not keep. */
  lemma UndoIsForgotten(s: State)
    requires Good(s) && Enabled(s, End(Fails)) && Wild(s, End(Fails))
    ensures s.begun && s.own == None && s.left == None && s.pending == Nothing
    ensures s.conn.work.data != Meant(s.base, s.log).data
  {
    assert Live(s) && Kept(s.conn.work, UndoIt, s.past.tidy, s.base, s.log);
    ForgottenIff(s.conn.work, UndoIt, s.base, s.log);
  }

  lemma RollbackForgets(s: State)
    requires Enabled(s, End(Fails)) && Wild(s, End(Fails))
    requires s.begun && s.own == None && s.left == None && s.pending == Nothing
    requires s.conn.work.data != Meant(s.base, s.log).data
    ensures MayBreak(Apply(s, End(Fails)))
  {
    var t := Apply(s, End(Fails));
    var u := Apply(t, Settle);
    assert u == s.(user := None, reported := Some(true), past := PastOf(s, Fails));
    var v := Apply(u, Post(Commit));
    assert v.conn == s.conn && v.log == s.log && v.base == s.base;
    var w := Apply(v, End(Succeeds));
    assert w.conn.landed && w.conn.committed == s.conn.work.data && w.log == s.log && w.base == s.base;
    BreaksNow(w);
    BreaksAfter(v, End(Succeeds));
    BreaksAfter(u, Post(Commit));
    BreaksAfter(t, Settle);
  }

  /** What a wild abandon finds: a COMMIT on the worker that takes the write with it. */
  lemma CommitTakesIt(s: State)
    requires Good(s) && Enabled(s, Abandon) && Wild(s, Abandon)
    ensures HasEnded(s.user) && s.own == Some(Slot(Commit, None))
    ensures s.conn.work.data != Meant(s.base, AbandonLast(s.log)).data
  {
    assert HasEnded(s.user) && OnWorker(s.own) && !Last(s.log).abandoned;
    assert Live(s) && Kept(s.conn.work, Nothing, s.past.tidy, s.base, s.log);
    AbandonMeans(s.base, s.log);
    assert |s.conn.work.data| == |Meant(s.base, AbandonLast(s.log)).data| + 1;
  }

  lemma AbandonComesLate(s: State)
    requires Enabled(s, Abandon) && Wild(s, Abandon)
    requires HasEnded(s.user) && s.own == Some(Slot(Commit, None))
    requires s.conn.work.data != Meant(s.base, AbandonLast(s.log)).data
    ensures MayBreak(Apply(s, Abandon))
  {
    var t := Apply(s, Abandon);
    var u := Apply(t, Judge);
    assert u.conn == s.conn && u.log == AbandonLast(s.log) && u.user == None && u.left == None && u.own == s.own && u.base == s.base;
    var v := Apply(u, End(Succeeds));
    assert v.conn.landed && v.conn.committed == s.conn.work.data && v.log == u.log && v.base == s.base;
    BreaksNow(v);
    BreaksAfter(u, End(Succeeds));
    BreaksAfter(t, Judge);
  }

  /** After a wild event some way on commits what the log does not mean. */
  lemma WildBreaks(s: State, e: Event)
    requires Good(s) && Enabled(s, e) && Wild(s, e)
    ensures MayBreak(Apply(s, e))
  {
    match e
    case Post(msg) =>
      assert Faithful(s) && Outside(s);
      if msg.Mark? {
        SavepointOutside(s, msg.name);
      } else if msg.saved {
        SavedStatementOutside(s, msg.id);
      } else {
        StatementOutside(s, msg.id);
      }
    case End(outcome) =>
      UndoIsForgotten(s);
      RollbackForgets(s);
    case Abandon =>
      CommitTakesIt(s);
      AbandonComesLate(s);
    case _ => assert false;
  }

  lemma GoodDoesNotBreak(s: State)
    requires Good(s)
    ensures !MayBreak(s)
  {
    if MayBreak(s) {
      var events :| CanRun(s, events) && TameRun(s, events) && !Faithful(Run(s, events));
      RunKeepsGood(s, events);
      assert false;
    }
  }

  /**
    * After a run so far without a wild event: some way on from the next event
    * commits what the log does not mean if and only if that event is wild.
    */
  lemma CommitMeaningIff(s: State, events: seq<Event>, e: Event)
    requires Init(s) && CanRun(s, events) && TameRun(s, events) && Enabled(Run(s, events), e)
    ensures MayBreak(Apply(Run(s, events), e)) <==> Wild(Run(s, events), e)
  {
    InitIsGood(s);
    RunKeepsGood(s, events);
    var t := Run(s, events);
    if Wild(t, e) {
      WildBreaks(t, e);
    } else {
      StepKeepsGood(t, e);
      GoodDoesNotBreak(Apply(t, e));
    }
  }

  // ------------------------------------------------------- the conditions in turn

  /** What a COMMIT behind what is already posted would make visible. */
  function Visible(s: State): Data { Concluded(s.conn, Owed(s)).work.data }

  /** In a good state it is what the log means. */
  lemma VisibleIsMeant(t: State)
    requires Good(t) && Live(t)
    ensures Visible(t) == Meant(t.base, t.log).data
  {
    assert Kept(t.conn.work, Owed(t), t.past.tidy, t.base, t.log);
    ConcludedIsMeant(t.conn, Owed(t), t.base, t.log);
  }

  /** An abandoned write is undone exactly when no COMMIT was posted behind it, or when it changed nothing. */
  lemma AbandonUndoesIff(s: State)
    requires Good(s) && Enabled(s, Abandon) && Live(s)
    ensures var t := Apply(s, Abandon);
            Visible(t) == Meant(t.base, t.log).data <==> s.own == None || !Last(s.log).succeeded
  {
    var t := Apply(s, Abandon);
    assert Kept(s.conn.work, Owed(s), s.past.tidy, s.base, s.log);
    AbandonFrame(s);
    AbandonMeans(s.base, s.log);
    if s.own == None {
      AbandonRelated(s.conn.work, s.base, s.log);
      ConcludedIsMeant(t.conn, UndoIt, t.base, t.log);
    } else {
      assert Last(s.log).succeeded ==> |s.conn.work.data| == |Meant(t.base, t.log).data| + 1;
    }
  }

  /** A ROLLBACK that fails on an open transaction loses what was owed exactly when that was the undo of a write that did something. */
  lemma FailedRollbackKeepsIff(s: State)
    requires Good(s) && MayPost(s, Rollback) && !s.gone && s.conn.inTx
    ensures var t := Apply(Apply(Apply(s, Post(Rollback)), End(Fails)), Settle);
            && MayPost(t, Commit)
            && (Visible(t) == Meant(t.base, t.log).data <==> !UndoMatters(s.pending, s.log))
  {
    var t := Apply(Apply(Apply(s, Post(Rollback)), End(Fails)), Settle);
    assert t.conn == s.conn && t.log == s.log && t.base == s.base && Owed(t) == Nothing;
    assert Kept(s.conn.work, s.pending, s.past.tidy, s.base, s.log);
    ForgottenIff(s.conn.work, s.pending, s.base, s.log);
  }

  /**
    * A COMMIT or ROLLBACK of the handle fails: `ending` stays unset, and the next
    * statement runs inside the transaction exactly when the connection reports it
    * is still in it, that is when it failed alone; otherwise what it does is
    * committed at once, or with the savepoint of its own it opens.
    */
  lemma FailedEndStaysInsideIff(s: State, outcome: Outcome, id: nat, saved: bool)
    requires Good(s) && OnWorker(s.user) && IsEnd(s.user.value.msg) && s.ending == Unset && !s.gone
    requires Enabled(s, End(outcome)) && outcome != Succeeds
    ensures var t := Apply(Apply(s, End(outcome)), Settle);
            && MayPost(t, Stmt(id, saved)) && (t.reported == Some(true) <==> outcome == Fails && s.conn.inTx)
            && var u := Apply(t, Post(Stmt(id, saved)));
               && (u.conn.inTx && !u.conn.implicit <==> t.reported == Some(true))
               && Enabled(u, End(Succeeds))
               && (!saved ==> (Apply(u, End(Succeeds)).conn.committed == s.conn.committed <==> t.reported == Some(true)))
               && (Wild(t, Post(Stmt(id, saved))) <==> t.reported == Some(false))
  {
    var t := Apply(Apply(s, End(outcome)), Settle);
    AfterFailedEnd(s, outcome);
    NextStatement(t, id, saved);
  }

  lemma AfterFailedEnd(s: State, outcome: Outcome)
    requires Good(s) && OnWorker(s.user) && IsEnd(s.user.value.msg) && s.ending == Unset && !s.gone
    requires Enabled(s, End(outcome)) && outcome != Succeeds
    ensures var t := Apply(Apply(s, End(outcome)), Settle);
            && MayPost(t, Commit) && !t.gone && t.pending == Nothing && t.conn.committed == s.conn.committed
            && t.reported == Some(t.conn.inTx) && t.conn.inTx == (outcome == Fails && s.conn.inTx) && !t.conn.implicit
  {
    assert s.begun && s.own == None && s.left == None && SlotsFit(s);
  }

  lemma NextStatement(t: State, id: nat, saved: bool)
    requires MayPost(t, Commit) && !t.gone && t.pending == Nothing && t.reported == Some(t.conn.inTx) && !t.conn.implicit
    ensures var u := Apply(t, Post(Stmt(id, saved)));
            && (u.conn.inTx && !u.conn.implicit <==> t.conn.inTx) && Enabled(u, End(Succeeds))
            && (!saved ==> (Apply(u, End(Succeeds)).conn.committed == t.conn.committed <==> t.conn.inTx))
            && (Wild(t, Post(Stmt(id, saved))) <==> !t.conn.inTx)
  {
    assert |t.conn.committed + [id]| != |t.conn.committed|;
  }

  // ---------------------------------------------------------------- wild runs, each reachable

  function Fresh(base: Data): State
  {
    State(true, Starting, false, false, Unset, Nothing, None, None, None, None, false,
          Conn(base, false, false, Db(base, []), false), [], base, Past(Nothing, true, false))
  }

  lemma {:induction false} OneMore(s: State, events: seq<Event>, e: Event)
    requires CanRun(s, events) && Enabled(Run(s, events), e)
    ensures CanRun(s, events + [e]) && Run(s, events + [e]) == Apply(Run(s, events), e)
    decreases |events|
  {
    if events == [] {
      assert CanRun(Apply(s, e), []);
      assert [e][1..] == [];
    } else {
      assert (events + [e])[1..] == events[1..] + [e];
      OneMore(Apply(s, events[0]), events[1..], e);
    }
  }

  /** A run of `state` so far: the events that led there. */
  ghost predicate Reaches(base: Data, state: State)
  {
    exists events :: CanRun(Fresh(base), events) && Run(Fresh(base), events) == state
  }

  lemma Onward(base: Data, state: State, e: Event)
    requires Reaches(base, state) && Enabled(state, e)
    ensures Reaches(base, Apply(state, e))
  {
    var events :| CanRun(Fresh(base), events) && Run(Fresh(base), events) == state;
    OneMore(Fresh(base), events, e);
  }

  /** The callback has just been called. */
  function Begun(base: Data): State
  {
    Fresh(base).(phase := Running, begun := true, reported := Some(true),
                 conn := Conn(base, true, false, Db(base, []), false))
  }

  lemma ReachesBegun(base: Data)
    ensures Reaches(base, Begun(base)) && Good(Begun(base))
  {
    var s := Fresh(base);
    assert CanRun(s, []) && Run(s, []) == s;
    Onward(base, s, BeginNow);
    var s1 := Apply(s, BeginNow);
    Onward(base, s1, End(Succeeds));
    var s2 := Apply(s1, End(Succeeds));
    Onward(base, s2, Record);
    assert Apply(s2, Record) == Begun(base);
    InitIsGood(s);
    StepKeepsGood(s, BeginNow);
    StepKeepsGood(s1, End(Succeeds));
    StepKeepsGood(s2, Record);
  }

  /**
    * The handle's COMMIT fails having left the transaction: `ending` is still
    * unset, the connection reports it is out, and the next statement lands outside
    * any transaction, for good.
    */
  lemma AfterFailedCommitStatementsLand(base: Data) returns (failed: State, t: State)
    ensures Reaches(base, failed) && Reaches(base, t)
    ensures failed.ending == Unset && failed.reported == Some(false) && MayPost(failed, Stmt(2, false))
    ensures !t.conn.landed && t.ending == Unset && t.conn.committed == base + [2]
  {
    ReachesBegun(base);
    var s1 := Begun(base);
    Onward(base, s1, Post(Commit));
    var s2 := Apply(s1, Post(Commit));
    Onward(base, s2, End(Leaves));
    var s3 := Apply(s2, End(Leaves));
    Onward(base, s3, Settle);
    failed := Apply(s3, Settle);
    assert failed == s1.(reported := Some(false), conn := Discard(s1.conn), past := Past(Nothing, true, true));
    Onward(base, failed, Post(Stmt(2, false)));
    var s5 := Apply(failed, Post(Stmt(2, false)));
    Onward(base, s5, End(Succeeds));
    t := Apply(s5, End(Succeeds));
  }

  /** There the condition fails, so that lemma says the statement is committed at once. */
  lemma FailedCommitLeftTheTransaction(base: Data)
    ensures Good(Committing(base)) && OnWorker(Committing(base).user) && Enabled(Committing(base), End(Leaves))
    ensures var t := Apply(Apply(Committing(base), End(Leaves)), Settle);
            t.reported == Some(false) && Wild(t, Post(Stmt(2, false)))
  {
    CommitPosted(base);
    AfterFailedEnd(Committing(base), Leaves);
    NextStatement(Apply(Apply(Committing(base), End(Leaves)), Settle), 2, false);
  }

  /** The handle's COMMIT is on the worker. */
  function Committing(base: Data): State { Begun(base).(user := Some(Slot(Commit, None))) }

  lemma CommitPosted(base: Data)
    ensures Enabled(Begun(base), Post(Commit)) && Apply(Begun(base), Post(Commit)) == Committing(base)
    ensures Good(Committing(base)) && Enabled(Committing(base), End(Leaves))
  {
    ReachesBegun(base);
    StepKeepsGood(Begun(base), Post(Commit));
  }

  /** One abandoned write, run to its end and judged: its undo is owed. */
  lemma ReachesOwed(base: Data) returns (t: State)
    ensures Reaches(base, t)
    ensures t == Begun(base).(pending := UndoIt, log := [Write(1, true, true)],
                              conn := Begun(base).conn.(work := Db(base + [1], [Frame(LIBRARY_SAVEPOINT, base)])))
  {
    ReachesBegun(base);
    var s1 := Begun(base);
    var msg := Stmt(1, true);
    Onward(base, s1, Post(msg));
    var s2 := Apply(s1, Post(msg));
    assert s2.log == [Write(1, false, false)];
    Onward(base, s2, Abandon);
    var s3 := Apply(s2, Abandon);
    assert s3.log == [Write(1, false, true)];
    Onward(base, s3, End(Succeeds));
    var s4 := Apply(s3, End(Succeeds));
    assert s4.log == [Write(1, true, true)];
    Onward(base, s4, Judge);
    t := Apply(s4, Judge);
  }

  /** ROLLBACK forgets the undo it has not run: it fails, and a later COMMIT keeps the abandoned write. */
  lemma FailedRollbackForgetsTheUndo(base: Data) returns (t: State)
    ensures Reaches(base, t)
    ensures t.conn.landed && t.conn.committed == base + [1] && Meant(base, t.log).data == base
  {
    var s1 := ReachesOwed(base);
    Onward(base, s1, Post(Rollback));
    var s2 := Apply(s1, Post(Rollback));
    Onward(base, s2, End(Fails));
    var s3 := Apply(s2, End(Fails));
    Onward(base, s3, Settle);
    var s4 := Apply(s3, Settle);
    assert s4 == s1.(pending := Nothing, past := Past(UndoIt, false, false));
    Onward(base, s4, Post(Commit));
    var s5 := Apply(s4, Post(Commit));
    Onward(base, s5, End(Succeeds));
    t := Apply(s5, End(Succeeds));
    assert ButLast(t.log) == [];
  }

  /** A saved write that ended well, its promise not settled yet. */
  lemma ReachesEnded(base: Data) returns (t: State)
    ensures Reaches(base, t)
    ensures t == Begun(base).(pending := ReleaseIt, log := [Write(1, true, false)], user := Some(Slot(Stmt(1, true), Some(true))),
                              conn := Begun(base).conn.(work := Db(base + [1], [Frame(LIBRARY_SAVEPOINT, base)])))
  {
    ReachesBegun(base);
    var s1 := Begun(base);
    var msg := Stmt(1, true);
    Onward(base, s1, Post(msg));
    var s2 := Apply(s1, Post(msg));
    assert s2.log == [Write(1, false, false)];
    Onward(base, s2, End(Succeeds));
    t := Apply(s2, End(Succeeds));
    assert t.log == [Write(1, true, false)];
  }

  /** The same write, with the runner's COMMIT posted behind it. */
  lemma ReachesCommitting(base: Data) returns (t: State)
    ensures Reaches(base, t)
    ensures t == Begun(base).(phase := Concluding, log := [Write(1, true, false)],
                              user := Some(Slot(Stmt(1, true), Some(true))), own := Some(Slot(Commit, None)),
                              conn := Begun(base).conn.(work := Db(base + [1], [])))
  {
    var s3 := ReachesEnded(base);
    Onward(base, s3, CallbackReturns);
    var s4 := Apply(s3, CallbackReturns);
    Onward(base, s4, Conclude);
    t := Apply(s4, Conclude);
    CommitArrives(s4.conn, base);
  }

  lemma CommitArrives(c: Conn, base: Data)
    requires c.inTx && !c.implicit && c.work == Db(base + [1], [Frame(LIBRARY_SAVEPOINT, base)])
    ensures Arrived(c, ReleaseIt, Commit) == c.(work := Db(base + [1], []))
  {
    TopConcluded(c, base);
  }

  /** A write abandoned once the runner's COMMIT was posted behind it is committed with it. */
  lemma AbandonedBehindTheCommit(base: Data) returns (t: State)
    ensures Reaches(base, t)
    ensures t.conn.landed && t.conn.committed == base + [1] && Meant(base, t.log).data == base
  {
    var s5 := ReachesCommitting(base);
    Onward(base, s5, Abandon);
    var s6 := Apply(s5, Abandon);
    assert s6.log == [Write(1, true, true)];
    Onward(base, s6, Judge);
    var s7 := Apply(s6, Judge);
    assert s7 == s5.(pending := UndoIt, user := None, log := [Write(1, true, true)]);
    Onward(base, s7, End(Succeeds));
    t := Apply(s7, End(Succeeds));
    MeantNext(base, [], Write(1, true, true));
    assert t.log == [] + [Write(1, true, true)];
  }
}
