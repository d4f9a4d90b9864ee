/**
  * A transaction's data against its log: the consumer's savepoints among the
  * connection's, and the library's own around a write its caller may abandon.
  */
module TransactionData {
  import opened Basics
  import opened Savepoints
  import opened Transaction

  function Last(log: seq<Logged>): Logged
    requires log != []
  {
    log[|log| - 1]
  }

  function ButLast(log: seq<Logged>): seq<Logged>
    requires log != []
  {
    log[..|log| - 1]
  }

  predicate LastIsWrite(log: seq<Logged>) { log != [] && Last(log).Write? }

  predicate IsLibrarys(f: Frame<Data>) { SameName(f.name, LIBRARY_SAVEPOINT) }

  /** The savepoints of the consumer, among all of a connection's. */
  function Consumer(stack: seq<Frame<Data>>): seq<Frame<Data>>
  {
    if stack == [] then []
    else
      var last := stack[|stack| - 1];
      Consumer(stack[..|stack| - 1]) + if IsLibrarys(last) then [] else [last]
  }

  predicate NoneOfTheLibrary(stack: seq<Frame<Data>>) { forall i | 0 <= i < |stack| :: !IsLibrarys(stack[i]) }

  predicate OnTop(stack: seq<Frame<Data>>, saved: Data)
  {
    stack != [] && stack[|stack| - 1] == Frame(LIBRARY_SAVEPOINT, saved)
  }

  /** What the last write posted did, once it is abandoned. */
  function Undone(log: seq<Logged>): Data
    requires LastIsWrite(log)
  {
    if Last(log).succeeded then [Last(log).id] else []
  }

  /**
    * The connection inside its transaction: the consumer's savepoints and data are
    * what the log means, up to the write `owed` is about, whose savepoint is on
    * top and holds the data to go back to.
    */
  predicate Related(work: Db<Data>, owed: Conclude, base: Data, log: seq<Logged>)
  {
    var m := Meant(base, log);
    && Consumer(work.stack) == m.stack
    && match owed
       case Nothing => work.data == m.data
       case ReleaseIt =>
         && LastIsWrite(log) && !Last(log).abandoned
         && work.data == m.data && OnTop(work.stack, Meant(base, ButLast(log)).data)
       case UndoIt =>
         && LastIsWrite(log) && Last(log).abandoned
         && work.data == m.data + Undone(log) && OnTop(work.stack, m.data)
  }

  /** The library has one savepoint open at most, for the write `owed` is about, above every one of the consumer's. */
  predicate Tidy(stack: seq<Frame<Data>>, owed: Conclude)
  {
    NoneOfTheLibrary(if owed == Nothing || stack == [] then stack else stack[..|stack| - 1])
  }

  // ------------------------------------------------------------------- the stacks

  lemma {:induction false} ConsumerSnoc(stack: seq<Frame<Data>>, f: Frame<Data>)
    ensures Consumer(stack + [f]) == Consumer(stack) + if IsLibrarys(f) then [] else [f]
  {
    assert (stack + [f])[..|stack|] == stack;
  }

  lemma {:induction false} ConsumerButLast(stack: seq<Frame<Data>>)
    requires stack != [] && IsLibrarys(stack[|stack| - 1])
    ensures Consumer(stack[..|stack| - 1]) == Consumer(stack)
  {
  }

  lemma {:induction false} ConsumerOfNone(stack: seq<Frame<Data>>)
    requires NoneOfTheLibrary(stack)
    ensures Consumer(stack) == stack
  {
    if stack != [] {
      var front, last := stack[..|stack| - 1], stack[|stack| - 1];
      assert stack == front + [last];
      assert !IsLibrarys(stack[|stack| - 1]);
      assert NoneOfTheLibrary(front) by { forall i | 0 <= i < |front| ensures !IsLibrarys(front[i]) { assert front[i] == stack[i]; } }
      ConsumerOfNone(front);
      ConsumerSnoc(front, last);
    }
  }

  /** What `name` finds in `own` is what it finds in `all`, with the consumer's savepoints below it below it. */
  predicate FindsAlike(all: seq<Frame<Data>>, own: seq<Frame<Data>>, name: string)
  {
    var i, j := Find(all, name), Find(own, name);
    && (i < 0 <==> j < 0)
    && (i >= 0 ==> own[j] == all[i] && Consumer(all[..i]) == own[..j] && Consumer(all[..i + 1]) == own[..j + 1])
  }

  lemma {:induction false} AlikeHere(all: seq<Frame<Data>>, own: seq<Frame<Data>>, f: Frame<Data>, name: string)
    requires own == Consumer(all) && Consumer(all + [f]) == own + [f] && SameName(f.name, name)
    ensures FindsAlike(all + [f], own + [f], name)
  {
    FindSnocHere(all, f, name);
    FindSnocHere(own, f, name);
  }

  lemma Front<T>(a: seq<T>, b: seq<T>, k: nat)
    requires k <= |a|
    ensures (a + b)[..k] == a[..k]
  {
  }

  lemma {:induction false} AlikePast(all: seq<Frame<Data>>, own: seq<Frame<Data>>, f: Frame<Data>, top: seq<Frame<Data>>, name: string)
    requires FindsAlike(all, own, name) && !SameName(f.name, name) && (top == [] || top == [f])
    ensures FindsAlike(all + [f], own + top, name)
  {
    FindSnocPast(all, f, name);
    if top == [] {
      assert own + top == own;
    } else {
      FindSnocPast(own, f, name);
    }
    var i, j := Find(all, name), Find(own, name);
    if i >= 0 {
      Front(all, [f], i);
      Front(all, [f], i + 1);
      Front(own, top, j);
      Front(own, top, j + 1);
    }
  }

  /** A name of the consumer's finds the same savepoint among its own and among all. */
  lemma {:induction false} ConsumerFinds(stack: seq<Frame<Data>>, name: string)
    requires !SameName(name, LIBRARY_SAVEPOINT)
    ensures FindsAlike(stack, Consumer(stack), name)
  {
    if stack != [] {
      var front, last := stack[..|stack| - 1], stack[|stack| - 1];
      assert stack == front + [last];
      ConsumerFinds(front, name);
      ConsumerSnoc(front, last);
      if SameName(last.name, name) {
        AlikeHere(front, Consumer(front), last, name);
      } else {
        AlikePast(front, Consumer(front), last, if IsLibrarys(last) then [] else [last], name);
      }
    }
  }

  lemma {:induction false} FindSnocHere(stack: seq<Frame<Data>>, f: Frame<Data>, name: string)
    requires SameName(f.name, name)
    ensures Find(stack + [f], name) == |stack| && (stack + [f])[..|stack|] == stack && (stack + [f])[..|stack| + 1] == stack + [f]
  {
  }

  lemma {:induction false} FindSnocPast(stack: seq<Frame<Data>>, f: Frame<Data>, name: string)
    requires !SameName(f.name, name)
    ensures Find(stack + [f], name) == Find(stack, name)
  {
    assert (stack + [f])[..|stack|] == stack;
  }

  // ------------------------------------------------------------- what a message does

  lemma {:induction false} MeantNext(base: Data, log: seq<Logged>, next: Logged)
    ensures ButLast(log + [next]) == log && Last(log + [next]) == next
    ensures next.Write? ==> Meant(base, log + [next]).stack == Meant(base, log).stack
    ensures next.Write? && (!next.succeeded || next.abandoned) ==> Meant(base, log + [next]) == Meant(base, log)
  {
    assert (log + [next])[..|log|] == log;
  }

  lemma {:induction false} TopIsFound(work: Db<Data>, saved: Data)
    requires OnTop(work.stack, saved)
    ensures var below := work.stack[..|work.stack| - 1];
            && SqlRelease(work, LIBRARY_SAVEPOINT) == Some(Db(work.data, below))
            && SqlRollbackTo(work, LIBRARY_SAVEPOINT) == Some(Db(saved, work.stack))
  {
    var top := |work.stack| - 1;
    assert Find(work.stack, LIBRARY_SAVEPOINT) == top;
    assert work.stack[..top + 1] == work.stack;
  }

  lemma {:induction false} TopConcluded(c: Conn, saved: Data)
    requires c.inTx && !c.implicit && OnTop(c.work.stack, saved)
    ensures var below := c.work.stack[..|c.work.stack| - 1];
            && Concluded(c, ReleaseIt) == c.(work := Db(c.work.data, below))
            && Concluded(c, UndoIt) == c.(work := Db(saved, below))
  {
    TopIsFound(c.work, saved);
    TopIsFound(Db(saved, c.work.stack), saved);
  }

  /** Concluding leaves the data the log means: an abandoned write is undone, any other kept. */
  lemma {:induction false} ConcludedIsMeant(c: Conn, owed: Conclude, base: Data, log: seq<Logged>)
    requires c.inTx && !c.implicit && Related(c.work, owed, base, log)
    ensures var d := Concluded(c, owed);
            && d == c.(work := d.work) && Related(d.work, Nothing, base, log)
            && d.work.data == Meant(base, log).data
            && (Tidy(c.work.stack, owed) ==> Tidy(d.work.stack, Nothing))
  {
    if owed != Nothing {
      TopConcluded(c, c.work.stack[|c.work.stack| - 1].saved);
      ConsumerButLast(c.work.stack);
    }
  }

  /** A posted statement takes what is owed with it, and opens its own savepoint on top. */
  lemma {:induction false} StatementArrives(c: Conn, owed: Conclude, base: Data, log: seq<Logged>, id: nat, saved: bool)
    requires c.inTx && !c.implicit && Related(c.work, owed, base, log)
    ensures var d, next := Arrived(c, owed, Stmt(id, saved)), if saved then ReleaseIt else Nothing;
            && d == c.(work := d.work) && Related(d.work, next, base, log + [Write(id, false, false)])
            && (Tidy(c.work.stack, owed) ==> Tidy(d.work.stack, next))
  {
    ConcludedIsMeant(c, owed, base, log);
    MeantNext(base, log, Write(id, false, false));
    var work := Concluded(c, owed).work;
    ConsumerSnoc(work.stack, Frame(LIBRARY_SAVEPOINT, work.data));
    assert (work.stack + [Frame(LIBRARY_SAVEPOINT, work.data)])[..|work.stack|] == work.stack;
  }

  /** The statement on the worker succeeds: its data and its place in the log change together. */
  lemma {:induction false} StatementSucceeds(work: Db<Data>, owed: Conclude, base: Data, log: seq<Logged>)
    requires Related(work, owed, base, log) && LastIsWrite(log) && !Last(log).succeeded
    requires Last(log).abandoned <==> owed == UndoIt
    ensures Related(work.(data := work.data + [Last(log).id]), owed, base, SucceedLast(log))
    ensures Meant(base, SucceedLast(log)).stack == Meant(base, log).stack
  {
    assert ButLast(SucceedLast(log)) == ButLast(log);
    var before := Meant(base, ButLast(log));
    assert Meant(base, log) == before;
    assert Meant(base, SucceedLast(log)) ==
           if Last(log).abandoned then before else before.(data := before.data + [Last(log).id]);
  }

  /** Abandoning the last posted write turns its release into an undo, whether it has ended or not. */
  lemma {:induction false} AbandonRelated(work: Db<Data>, base: Data, log: seq<Logged>)
    requires Related(work, ReleaseIt, base, log)
    ensures Related(work, UndoIt, base, AbandonLast(log))
  {
    AbandonMeans(base, log);
  }

  lemma {:induction false} AbandonMeans(base: Data, log: seq<Logged>)
    ensures Meant(base, AbandonLast(log)).stack == Meant(base, log).stack
    ensures LastIsWrite(log) ==>
              && Last(AbandonLast(log)) == Last(log).(abandoned := true)
              && Meant(base, AbandonLast(log)) == Meant(base, ButLast(log))
              && (!Last(log).abandoned ==> Meant(base, log).data == Meant(base, AbandonLast(log)).data + Undone(log))
  {
    if log != [] { assert ButLast(AbandonLast(log)) == ButLast(log); }
  }

  lemma {:induction false} SucceedMeans(base: Data, log: seq<Logged>)
    ensures Meant(base, SucceedLast(log)).stack == Meant(base, log).stack
  {
    if log != [] { assert ButLast(SucceedLast(log)) == ButLast(log); }
  }

  /** A conclusion forgotten changes the data exactly when it was the undo of a write that did something. */
  lemma {:induction false} ForgottenIff(work: Db<Data>, owed: Conclude, base: Data, log: seq<Logged>)
    requires Related(work, owed, base, log)
    ensures Related(work, Nothing, base, log) <==> work.data == Meant(base, log).data
    ensures work.data == Meant(base, log).data <==> !(owed == UndoIt && Last(log).succeeded)
  {
    if owed == UndoIt { assert |work.data| == |Meant(base, log).data| + |Undone(log)|; }
  }

  // ------------------------------------------------------- the consumer's savepoints

  predicate IsOperation(msg: Msg) { msg.Mark? || msg.Drop? || msg.Back? }

  predicate IsConsumers(msg: Msg) { IsOperation(msg) ==> !SameName(msg.name, LIBRARY_SAVEPOINT) }

  /** What SQLite does with a savepoint operation that succeeds. */
  function Operated(db: Db<Data>, msg: Msg): Db<Data>
  {
    match msg
    case Mark(name) => SqlSavepoint(db, name)
    case Drop(name) => var r := SqlRelease(db, name); if r.Some? then r.value else db
    case Back(name) => var r := SqlRollbackTo(db, name); if r.Some? then r.value else db
    case _ => db
  }

  lemma {:induction false} MeantOperated(base: Data, log: seq<Logged>, msg: Msg)
    requires IsOperation(msg)
    ensures Meant(base, LogDone(log, msg)) == Operated(Meant(base, log), msg)
  {
    MeantNext(base, log, Last(LogDone(log, msg)));
  }

  predicate OperatesAlike(db: Db<Data>, msg: Msg)
  {
    var r := Operated(Db(db.data, Consumer(db.stack)), msg);
    Operated(db, msg).data == r.data && Consumer(Operated(db, msg).stack) == r.stack
  }

  lemma {:induction false} MarkedConsumer(db: Db<Data>, name: string)
    requires !SameName(name, LIBRARY_SAVEPOINT)
    ensures OperatesAlike(db, Mark(name))
  {
    ConsumerSnoc(db.stack, Frame(name, db.data));
  }

  /** What a name finds decides what is left. */
  lemma FoundDecides(db: Db<Data>, name: string)
    ensures var i := Find(db.stack, name);
            && Operated(db, Drop(name)) == (if i < 0 then db else Db(db.data, db.stack[..i]))
            && Operated(db, Back(name)) == (if i < 0 then db else Db(db.stack[i].saved, db.stack[..i + 1]))
  {
  }

  lemma {:induction false} FoundAlike(db: Db<Data>, name: string)
    requires FindsAlike(db.stack, Consumer(db.stack), name)
    ensures OperatesAlike(db, Drop(name)) && OperatesAlike(db, Back(name))
  {
    FoundDecides(db, name);
    FoundDecides(Db(db.data, Consumer(db.stack)), name);
  }

  lemma {:induction false} NoneStay(db: Db<Data>, msg: Msg)
    requires IsOperation(msg) && IsConsumers(msg) && NoneOfTheLibrary(db.stack)
    ensures NoneOfTheLibrary(Operated(db, msg).stack)
  {
  }

  /** It does the same to the consumer's savepoints, whatever the library has between them. */
  lemma {:induction false} OperatedConsumer(db: Db<Data>, msg: Msg)
    requires IsOperation(msg) && IsConsumers(msg)
    ensures OperatesAlike(db, msg)
  {
    match msg
    case Mark(name) => MarkedConsumer(db, name);
    case Drop(name) => ConsumerFinds(db.stack, name); FoundAlike(db, name);
    case Back(name) => ConsumerFinds(db.stack, name); FoundAlike(db, name);
    case _ =>
  }

  lemma {:induction false} OperationSucceeds(c: Conn, base: Data, log: seq<Logged>, msg: Msg)
    requires c.inTx && !c.implicit && Related(c.work, Nothing, base, log) && CanSucceed(c, msg)
    requires IsOperation(msg) && IsConsumers(msg)
    ensures Done(c, msg) == c.(work := Operated(c.work, msg))
    ensures Related(Operated(c.work, msg), Nothing, base, LogDone(log, msg))
    ensures Tidy(c.work.stack, Nothing) ==> Tidy(Operated(c.work, msg).stack, Nothing)
  {
    MeantOperated(base, log, msg);
    OperatedConsumer(c.work, msg);
    if NoneOfTheLibrary(c.work.stack) { NoneStay(c.work, msg); }
    assert Meant(base, log) == Db(c.work.data, Consumer(c.work.stack));
  }

  lemma {:induction false} ConsumersStay(base: Data, log: seq<Logged>, msg: Msg)
    requires NoneOfTheLibrary(Meant(base, log).stack) && IsOperation(msg) && IsConsumers(msg)
    ensures NoneOfTheLibrary(Meant(base, LogDone(log, msg)).stack)
  {
    MeantOperated(base, log, msg);
    NoneStay(Meant(base, log), msg);
  }
}
