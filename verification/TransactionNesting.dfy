/**
  * Where the library's savepoint stands: above every one of the consumer's. That
  * holds of every run in which no ROLLBACK comes to nothing having forgotten a
  * conclusion, and each such ROLLBACK can leave one under a consumer's.
  */
module TransactionNesting {
  import opened Basics
  import opened Savepoints
  import opened Transaction
  import opened TransactionData
  import opened TransactionInvariant
  import opened TransactionMeaning

  /** A savepoint of the library's stands under one of the consumer's. */
  predicate Buried(stack: seq<Frame<Data>>)
  {
    exists i, j | 0 <= i < j < |stack| :: IsLibrarys(stack[i]) && !IsLibrarys(stack[j])
  }

  /** No event is wild, and no ROLLBACK of the handle comes to nothing having forgotten a conclusion. */
  predicate NeatRun(s: State, events: seq<Event>)
    requires CanRun(s, events)
    decreases |events|
  {
    events != [] ==> !Wild(s, events[0]) && !Forgets(s, events[0]) && NeatRun(Apply(s, events[0]), events[1..])
  }

  lemma RecordKeepsPast(s: State)
    requires Enabled(s, Record)
    ensures Apply(s, Record).past == s.past
  {
    match s.own.value.msg
    case Commit => CommitRecordLeaves(s);
    case Rollback => RollbackRecordLeaves(s);
    case _ =>
  }

  lemma StepKeepsTidy(s: State, e: Event)
    requires Enabled(s, e)
    ensures Apply(s, e).past.tidy <==> s.past.tidy && !Forgets(s, e)
  {
    match e
    case Settle => SettleFrame(s);
    case Record => RecordKeepsPast(s);
    case Conclude => assert DoConclude(s).past.tidy == s.past.tidy;
    case _ =>
  }

  lemma {:induction false} RunKeepsTidy(s: State, events: seq<Event>)
    requires Good(s) && s.past.tidy && CanRun(s, events) && NeatRun(s, events)
    ensures Good(Run(s, events)) && Run(s, events).past.tidy
    decreases |events|
  {
    if events != [] {
      StepKeepsGood(s, events[0]);
      StepKeepsTidy(s, events[0]);
      RunKeepsTidy(Apply(s, events[0]), events[1..]);
    }
  }

  lemma TidyIsNotBuried(stack: seq<Frame<Data>>, owed: Conclude)
    requires Tidy(stack, owed)
    ensures !Buried(stack)
  {
    var below := if owed == Nothing || stack == [] then stack else stack[..|stack| - 1];
    forall i | 0 <= i < |stack| - 1
      ensures !IsLibrarys(stack[i])
    {
      assert below[i] == stack[i];
    }
  }

  /** Some way on from here, with nothing wild and nothing forgotten on it, leaves the library's savepoint under a consumer's. */
  ghost predicate MayBury(s: State)
  {
    exists events ::
      CanRun(s, events) && NeatRun(s, events) && Live(Run(s, events)) && Buried(Run(s, events).conn.work.stack)
  }

  lemma NeatDoesNotBury(s: State)
    requires Good(s) && s.past.tidy
    ensures !MayBury(s)
  {
    if MayBury(s) {
      var events :|
        CanRun(s, events) && NeatRun(s, events) && Live(Run(s, events)) && Buried(Run(s, events).conn.work.stack);
      RunKeepsTidy(s, events);
      var t := Run(s, events);
      assert Kept(t.conn.work, Owed(t), true, t.base, t.log);
      TidyIsNotBuried(t.conn.work.stack, Owed(t));
      assert false;
    }
  }

  /** So the library's savepoint is never under a consumer's, and what the handle posts finds none of it. */
  lemma NeatRunsNest(s: State, events: seq<Event>)
    requires Init(s) && CanRun(s, events) && NeatRun(s, events)
    ensures var t := Run(s, events); Live(t) ==> !Buried(t.conn.work.stack)
    ensures var t := Run(s, events);
            MayPost(t, Commit) && Live(t) ==> Concluded(t.conn, t.pending).work == Meant(t.base, t.log)
  {
    InitIsGood(s);
    RunKeepsTidy(s, events);
    var t := Run(s, events);
    if Live(t) {
      assert Kept(t.conn.work, Owed(t), true, t.base, t.log);
      TidyIsNotBuried(t.conn.work.stack, Owed(t));
      if MayPost(t, Commit) {
        ConcludedIsMeant(t.conn, t.pending, t.base, t.log);
        ConsumerOfNone(Concluded(t.conn, t.pending).work.stack);
      }
    }
  }

  // ------------------------------------------------------- one way on after forgetting

  lemma BuriesNow(s: State)
    requires Live(s) && Buried(s.conn.work.stack)
    ensures MayBury(s)
  {
    assert CanRun(s, []) && Run(s, []) == s;
  }

  lemma BuriesAfter(s: State, e: Event)
    requires Enabled(s, e) && !Wild(s, e) && !Forgets(s, e) && MayBury(Apply(s, e))
    ensures MayBury(s)
  {
    var t := Apply(s, e);
    var events :|
      CanRun(t, events) && NeatRun(t, events) && Live(Run(t, events)) && Buried(Run(t, events).conn.work.stack);
    assert ([e] + events)[1..] == events;
    assert CanRun(s, [e] + events) && NeatRun(s, [e] + events);
    assert Run(s, [e] + events) == Run(t, events);
  }

  /** Nothing is owed and the handle may post: where its next savepoint goes. */
  predicate Posting(s: State)
  {
    MayPost(s, Commit) && !s.gone && s.conn.inTx && s.pending == Nothing
  }

  /** The consumer's next savepoint. */
  function Marked(s: State, name: string): State
    requires Posting(s) && IsFresh(s, name)
  {
    Apply(Apply(s, Post(Mark(name))), End(Succeeds))
  }

  lemma MarkedStack(s: State, name: string)
    requires Posting(s) && IsFresh(s, name)
    ensures Marked(s, name).conn == s.conn.(work := SqlSavepoint(s.conn.work, name))
    ensures Live(Marked(s, name))
  {
  }

  lemma SnocBuriesIff(stack: seq<Frame<Data>>, f: Frame<Data>)
    requires !IsLibrarys(f)
    ensures Buried(stack + [f]) <==> !NoneOfTheLibrary(stack)
  {
    var more := stack + [f];
    assert forall i | 0 <= i < |stack| :: more[i] == stack[i];
    assert more[|stack|] == f;
  }

  /** It is opened above whatever of the library's is still there, and only then is that under it. */
  lemma MarkBuriesIff(s: State, name: string)
    requires Posting(s) && IsFresh(s, name)
    ensures Buried(Marked(s, name).conn.work.stack) <==> !NoneOfTheLibrary(s.conn.work.stack)
  {
    MarkedStack(s, name);
    SnocBuriesIff(s.conn.work.stack, Frame(name, s.conn.work.data));
  }

  lemma MarkBuries(s: State, name: string)
    requires Posting(s) && IsFresh(s, name) && !NoneOfTheLibrary(s.conn.work.stack)
    ensures MayBury(s)
  {
    MarkedStack(s, name);
    MarkBuriesIff(s, name);
    var t := Apply(s, Post(Mark(name)));
    BuriesNow(Marked(s, name));
    BuriesAfter(t, End(Succeeds));
    BuriesAfter(s, Post(Mark(name)));
  }

  function Longest(stack: seq<Frame<Data>>): (n: nat)
    ensures forall i | 0 <= i < |stack| :: |stack[i].name| <= n
  {
    if stack == [] then 0
    else
      var last, n := |stack[|stack| - 1].name|, Longest(stack[..|stack| - 1]);
      if last > n then last else n
  }

  /** There is always a name to open. */
  lemma SomeNameIsFresh(s: State) returns (name: string)
    ensures IsFresh(s, name)
  {
    var stack := Meant(s.base, s.log).stack;
    var n := Longest(stack) + |LIBRARY_SAVEPOINT| + 1;
    name := seq(n, _ => 'a');
    assert |Lower(name)| == n && |Lower(LIBRARY_SAVEPOINT)| == |LIBRARY_SAVEPOINT|;
    forall i | 0 <= i < |stack|
      ensures !SameName(stack[i].name, name)
    {
      assert |Lower(stack[i].name)| == |stack[i].name|;
    }
  }

  lemma TopIsTheLibrarys(stack: seq<Frame<Data>>, saved: Data)
    requires OnTop(stack, saved)
    ensures !NoneOfTheLibrary(stack)
  {
    assert IsLibrarys(stack[|stack| - 1]);
  }

  // ------------------------------------------------------ a ROLLBACK that fails

  /** The handle's ROLLBACK fails on the open transaction. */
  lemma FailedRollbackFrame(s: State)
    requires Good(s) && Enabled(s, End(Fails)) && OnWorker(s.user) && s.user.value.msg.Rollback?
    requires !s.gone && s.conn.inTx && s.ending == Unset
    ensures var t := Apply(Apply(s, End(Fails)), Settle);
            && Posting(t) && t.conn == s.conn && t.log == s.log && t.base == s.base
            && (t.past.tidy <==> s.past.tidy && s.past.forgot == Nothing)
    ensures Live(s) && Owed(s) == s.past.forgot
  {
    assert s.begun && s.own == None && s.left == None && SlotsFit(s);
  }

  /**
    * It leaves the library's savepoint behind, under the consumer's next one, exactly
    * when something was pending as it was called.
    */
  lemma FailedRollbackNestsIff(s: State, name: string)
    requires Good(s) && MayPost(s, Rollback) && !s.gone && s.conn.inTx && s.past.tidy && IsFresh(s, name)
    ensures var t := Apply(Apply(Apply(s, Post(Rollback)), End(Fails)), Settle);
            && Posting(t) && IsFresh(t, name)
            && (NoneOfTheLibrary(t.conn.work.stack) <==> s.pending == Nothing)
            && (t.past.tidy <==> s.pending == Nothing)
            && (Buried(Marked(t, name).conn.work.stack) <==> s.pending != Nothing)
  {
    var r := Apply(s, Post(Rollback));
    StepKeepsGood(s, Post(Rollback));
    FailedRollbackFrame(r);
    LibrarysIsOwed(r);
    MarkBuriesIff(Apply(Apply(r, End(Fails)), Settle), name);
  }

  /** With nothing forgotten so far, the library's savepoint is open exactly when something is owed. */
  lemma LibrarysIsOwed(s: State)
    requires Good(s) && Live(s) && s.past.tidy
    ensures NoneOfTheLibrary(s.conn.work.stack) <==> Owed(s) == Nothing
  {
    var stack := s.conn.work.stack;
    assert Kept(s.conn.work, Owed(s), true, s.base, s.log);
    if Owed(s) != Nothing { TopIsTheLibrarys(stack, stack[|stack| - 1].saved); }
  }

  // ---------------------------------------------------- a ROLLBACK the pool refuses

  predicate Refusable(s: State)
  {
    Good(s) && Enabled(s, RefuseRollback) && OnWorker(s.user) && s.user.value.msg.Stmt? && !s.gone
  }

  /** The pool refuses the handle's ROLLBACK while its statement is on the worker; that then ends alone. */
  function Refused(s: State, outcome: Outcome): State
    requires Refusable(s) && outcome != Leaves
  {
    var r := Apply(s, RefuseRollback);
    RefusableFrame(s);
    RefusedEnds(s, outcome);
    Apply(Apply(r, End(outcome)), Settle)
  }

  /** What a statement on the worker says of the rest. */
  lemma RefusableFrame(s: State)
    requires Refusable(s)
    ensures s.own == None && s.left == None && s.conn.inTx && !s.conn.implicit && !s.conn.landed && LastIsWrite(s.log)
    ensures Live(s) && (s.past.tidy ==> Owed(s) == s.pending)
  {
    assert SlotsFit(s) && Inside(s) && Clean(s);
  }

  lemma RefusedFrame(s: State, outcome: Outcome)
    requires Refusable(s) && outcome != Leaves
    ensures var t := Refused(s, outcome);
            && Posting(t) && t.conn.work.stack == s.conn.work.stack && t.base == s.base
            && t.log == (if outcome == Succeeds then SucceedLast(s.log) else s.log)
            && (t.past.tidy <==> s.past.tidy && s.pending == Nothing)
  {
    RefusableFrame(s);
    RefusedEnds(s, outcome);
  }

  lemma RefusedEnds(s: State, outcome: Outcome)
    requires s.begun && s.ending == Unset && OnWorker(s.user) && s.user.value.msg.Stmt? && s.own == None && s.left == None
    requires !s.gone && s.conn.inTx && outcome != Leaves
    ensures var r := Apply(s, RefuseRollback);
            && Enabled(r, End(outcome))
            && var t := Apply(Apply(r, End(outcome)), Settle);
               && Posting(t) && t.conn.work.stack == s.conn.work.stack && t.base == s.base
               && t.log == (if outcome == Succeeds then SucceedLast(s.log) else s.log)
               && (t.past.tidy <==> s.past.tidy && s.pending == Nothing)
  {
    var r := Apply(s, RefuseRollback);
    assert OnWire(r) == s.user.value.msg && CanSucceed(r.conn, OnWire(r));
  }

  /**
    * The same of a ROLLBACK refused: the savepoint of the write on the worker stays,
    * under the consumer's next one, exactly when its release was pending.
    */
  lemma RefusedRollbackNestsIff(s: State, outcome: Outcome, name: string)
    requires Refusable(s) && outcome != Leaves && s.past.tidy && IsFresh(s, name)
    ensures var t := Refused(s, outcome);
            && Posting(t) && IsFresh(t, name)
            && (NoneOfTheLibrary(t.conn.work.stack) <==> s.pending == Nothing)
            && (t.past.tidy <==> s.pending == Nothing)
            && (Buried(Marked(t, name).conn.work.stack) <==> s.pending != Nothing)
  {
    RefusableFrame(s);
    RefusedFrame(s, outcome);
    SucceedMeans(s.base, s.log);
    LibrarysIsOwed(s);
    MarkBuriesIff(Refused(s, outcome), name);
  }

  /** The data is kept all the same: what the next COMMIT makes visible is what the log means. */
  lemma RefusedRollbackKeepsTheData(s: State, outcome: Outcome)
    requires Refusable(s) && outcome != Leaves
    ensures var t := Refused(s, outcome); Visible(t) == Meant(t.base, t.log).data
  {
    var r := Apply(s, RefuseRollback);
    RefusedFrame(s, outcome);
    StepKeepsGood(s, RefuseRollback);
    StepKeepsGood(r, End(outcome));
    StepKeepsGood(Apply(r, End(outcome)), Settle);
    VisibleIsMeant(Refused(s, outcome));
  }

  /** And if the write's own signal abandons it after the refusal, its undo is owed again, and takes the savepoint along. */
  lemma AbandonedAfterTheRefusal(s: State)
    requires Refusable(s) && s.past.tidy && s.user.value.msg.saved
    ensures var r := Apply(s, RefuseRollback);
            && r.pending == Nothing && Enabled(r, Abandon)
            && var t := Apply(r, Abandon);
               t.pending == UndoIt && Concluded(t.conn, t.pending).work == Meant(t.base, t.log)
  {
    var r := Apply(s, RefuseRollback);
    assert Clean(s) && SlotsFit(s) && Inside(s) && s.own == None && s.left == None;
    assert Live(s) && Kept(s.conn.work, ReleaseIt, true, s.base, s.log);
    AbandonRelated(s.conn.work, s.base, s.log);
    ConcludedIsMeant(s.conn, UndoIt, s.base, AbandonLast(s.log));
    ConsumerOfNone(Concluded(s.conn, UndoIt).work.stack);
  }

  // ------------------------------------------------------------------- over whole runs

  lemma ForgettingBuries(s: State, e: Event)
    requires Good(s) && Enabled(s, e) && Forgets(s, e)
    ensures MayBury(Apply(s, e))
  {
    match e
    case End(outcome) =>
      var t := Apply(s, End(Fails));
      FailedRollbackFrame(s);
      StillThere(s);
      var name := SomeNameIsFresh(Apply(t, Settle));
      MarkBuries(Apply(t, Settle), name);
      BuriesAfter(t, Settle);
    case RefuseRollback =>
      assert Refusable(s) by { assert SlotsFit(s); }
      var t := Apply(s, RefuseRollback);
      RefusableFrame(s);
      RefusedFrame(s, Fails);
      StillThere(s);
      var name := SomeNameIsFresh(Refused(s, Fails));
      MarkBuries(Refused(s, Fails), name);
      BuriesAfter(Apply(t, End(Fails)), Settle);
      BuriesAfter(t, End(Fails));
    case _ => assert false;
  }

  lemma StillThere(s: State)
    requires Good(s) && Live(s) && Owed(s) != Nothing
    ensures !NoneOfTheLibrary(s.conn.work.stack)
  {
    assert Kept(s.conn.work, Owed(s), s.past.tidy, s.base, s.log);
    TopIsTheLibrarys(s.conn.work.stack, s.conn.work.stack[|s.conn.work.stack| - 1].saved);
  }

  /**
    * After a run so far with nothing wild and nothing forgotten: some way on from the
    * next event leaves the library's savepoint under a consumer's if and only if that
    * event is a ROLLBACK that comes to nothing having forgotten a conclusion.
    */
  lemma NestingIff(s: State, events: seq<Event>, e: Event)
    requires Init(s) && CanRun(s, events) && NeatRun(s, events) && Enabled(Run(s, events), e)
    requires !Wild(Run(s, events), e) || Forgets(Run(s, events), e)
    ensures MayBury(Apply(Run(s, events), e)) <==> Forgets(Run(s, events), e)
  {
    InitIsGood(s);
    RunKeepsTidy(s, events);
    var t := Run(s, events);
    if Forgets(t, e) {
      ForgettingBuries(t, e);
    } else {
      StepKeepsGood(t, e);
      StepKeepsTidy(t, e);
      NeatDoesNotBury(Apply(t, e));
    }
  }

  // ------------------------------------------------------------------ two reachable runs

  /**
    * A ROLLBACK that fails also forgets a release: the library's savepoint stays,
    * and the consumer's next one is opened above it.
    */
  lemma FailedRollbackLeavesItsSavepoint(base: Data) returns (t: State)
    ensures Reaches(base, t)
    ensures t.conn.inTx && !t.past.tidy && t.conn.work.stack == [Frame(LIBRARY_SAVEPOINT, base), Frame("a", base + [1])]
  {
    var s1 := ReachesEnded(base);
    Onward(base, s1, Settle);
    var s2 := Apply(s1, Settle);
    Onward(base, s2, Post(Rollback));
    var s3 := Apply(s2, Post(Rollback));
    Onward(base, s3, End(Fails));
    var s4 := Apply(s3, End(Fails));
    Onward(base, s4, Settle);
    var s5 := Apply(s4, Settle);
    assert s5 == s1.(user := None, pending := Nothing, past := Past(ReleaseIt, false, false));
    NothingOpen(base, s5.log);
    Onward(base, s5, Post(Mark("a")));
    t := MarkDone(base, s5);
  }

  lemma MarkDone(base: Data, s5: State) returns (t: State)
    requires Reaches(base, s5) && MayPost(s5, Mark("a")) && Reaches(base, Apply(s5, Post(Mark("a"))))
    requires s5.conn.inTx && !s5.gone && s5.pending == Nothing && !s5.past.tidy
    requires s5.conn.work == Db(base + [1], [Frame(LIBRARY_SAVEPOINT, base)])
    ensures Reaches(base, t)
    ensures t.conn.inTx && !t.past.tidy && t.conn.work.stack == [Frame(LIBRARY_SAVEPOINT, base), Frame("a", base + [1])]
  {
    var s6 := Apply(s5, Post(Mark("a")));
    Onward(base, s6, End(Succeeds));
    t := Apply(s6, End(Succeeds));
  }

  lemma NothingOpen(base: Data, log: seq<Logged>)
    requires log == [Write(1, true, false)]
    ensures Meant(base, log).stack == [] && !SameName("a", LIBRARY_SAVEPOINT)
  {
    MeantNext(base, [], log[0]);
    assert log == [] + [log[0]];
    assert |Lower("a")| == 1 && |Lower(LIBRARY_SAVEPOINT)| == |LIBRARY_SAVEPOINT|;
  }

  /** A saved write on the worker when the handle's ROLLBACK is refused. */
  lemma ReachesRefusal(base: Data) returns (t: State)
    ensures Reaches(base, t)
    ensures t == Begun(base).(log := [Write(1, false, false)], user := Some(Slot(Stmt(1, true), None)),
                              past := Past(Nothing, false, false),
                              conn := Begun(base).conn.(work := Db(base, [Frame(LIBRARY_SAVEPOINT, base)])))
  {
    ReachesBegun(base);
    var s1 := Begun(base);
    Onward(base, s1, Post(Stmt(1, true)));
    var s2 := Apply(s1, Post(Stmt(1, true)));
    assert s2.log == [Write(1, false, false)];
    Onward(base, s2, RefuseRollback);
    t := Apply(s2, RefuseRollback);
  }

  /** The write then ends well, and the consumer's next savepoint is opened above the one it left. */
  lemma RefusedRollbackLeavesItsSavepoint(base: Data) returns (t: State)
    ensures Reaches(base, t)
    ensures t.conn.inTx && !t.past.tidy && t.conn.work.stack == [Frame(LIBRARY_SAVEPOINT, base), Frame("a", base + [1])]
  {
    var s1 := ReachesRefusal(base);
    Onward(base, s1, End(Succeeds));
    var s2 := Apply(s1, End(Succeeds));
    assert s2.log == [Write(1, true, false)];
    Onward(base, s2, Settle);
    var s3 := Apply(s2, Settle);
    assert s3 == s1.(user := None, log := [Write(1, true, false)], reported := Some(true),
                     conn := s1.conn.(work := Db(base + [1], [Frame(LIBRARY_SAVEPOINT, base)])));
    NothingOpen(base, s3.log);
    Onward(base, s3, Post(Mark("a")));
    t := MarkDone(base, s3);
  }
}
