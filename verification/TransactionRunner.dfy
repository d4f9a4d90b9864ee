/**
  * The runner's own variables as they run: `ending`, `begun`, `done` and the
  * conclusion it owes, each method a piece of the machine's step it is part of.
  */
module TransactionRunner {
  import opened Basics
  import opened Transaction

  predicate Settled(slot: Option<Slot>, msg: Msg, ok: bool) { slot == Some(Slot(msg, Some(ok))) }

  class Runner {
    var ending: Ending
    var begun: bool
    var done: bool
    var pending: Conclude

    /** These are the machine's variables. */
    ghost predicate Is(s: State)
      reads this
    {
      ending == s.ending && begun == s.begun && done == s.done && pending == s.pending
    }

    constructor ()
      ensures forall s | Init(s) :: Is(s)
    {
      ending, begun, done, pending := Unset, false, false, Nothing;
    }

    /** The cause of a death is kept by the first; nothing once the transaction has ended. */
    method Die(ghost s: State)
      requires Is(s)
      modifies this`ending
      ensures Is(DieIf(s, true))
    {
      if ending == Unset { ending := Died; }
    }

    /** What the pool asks for when it posts a query of the transaction's: the conclusion owed goes with it, once. */
    method Via(open: bool, ghost s: State, ghost msg: Msg) returns (conclude: Conclude)
      requires Is(s) && open == IsSaved(msg)
      modifies this`pending
      ensures conclude == s.pending && Is(Sent(s, msg))
    {
      conclude := pending;
      pending := if open then ReleaseIt else Nothing;
    }

    /** `commit()` and `rollback()` at their entry: whether a message is owed at all. */
    method EntryOfEnd() returns (posts: bool)
      ensures posts == (ending == Unset)
    {
      posts := ending == Unset;
    }

    /** `commitNow` comes back, for the handle's `commit()` or for the runner's own. */
    method CommitSettles(ok: bool, ghost s: State)
      requires Is(s) && (Settled(s.user, Commit, ok) || Settled(s.own, Commit, ok))
      modifies this`done, this`ending
      ensures Settled(s.user, Commit, ok) ==> Is(DoSettle(s))
      ensures Settled(s.own, Commit, ok) ==> if ok then Is(DoRecord(s)) else Is(s)
    {
      if !ok { return; }
      done := true;
      ending := Committed;
    }

    /** A full ROLLBACK goes bare: what was owed is forgotten before it is sent, and stays so if the pool refuses it. */
    method RollbackSent(ghost s: State)
      requires Is(s)
      modifies this`pending
      ensures Is(SentRollback(s))
      ensures Enabled(s, RefuseRollback) ==> Is(Apply(s, RefuseRollback))
    {
      pending := Nothing;
    }

    /** `rollbackNow` comes back, for the handle's `rollback()` or for the runner's own. */
    method RollbackSettles(ok: bool, ghost s: State)
      requires Is(s) && (Settled(s.user, Rollback, ok) || Settled(s.own, Rollback, ok))
      modifies this`done, this`ending
      ensures Settled(s.user, Rollback, ok) ==> Is(DoSettle(s))
      ensures Settled(s.own, Rollback, ok) ==> if ok then Is(DoRecord(s)) else Is(s)
    {
      if !ok { return; }
      done := true;
      if ending == Unset { ending := RolledBackEnd; }
    }

    /** The runner's own message was refused: the automatic end is a death, the ROLLBACK owed by a failure closes the handle. */
    method OwnEndRefused(repairing: bool, ghost s: State)
      requires Is(s) && (Settled(s.own, Commit, false) || Settled(s.own, Rollback, false))
      requires repairing == (s.phase == Repairing) && (repairing ==> Settled(s.own, Rollback, false))
      modifies this`ending
      ensures Is(DoRecord(s))
    {
      if ending == Unset { ending := if repairing then RolledBackEnd else Died; }
    }

    /** The write runs on; what it left is to be undone. */
    method Abandon(ghost s: State)
      requires Is(s) && Enabled(s, Event.Abandon)
      modifies this`pending
      ensures Is(Apply(s, Event.Abandon))
    {
      pending := UndoIt;
    }

    /** Read once the worker is idle after a statement. */
    method DieIfConnectionLeft(inTransaction: Option<bool>, ghost s: State)
      requires Is(s) && s.reported == inTransaction && Enabled(s, Judge)
      modifies this`ending
      ensures Is(Apply(s, Judge))
    {
      if !begun || ending != Unset || inTransaction != Some(false) { return; }
      ending := Died;
    }

    /** BEGIN has come back: the transaction is open, though a signal may have fired meanwhile. */
    method BeginSettles(ok: bool, ghost s: State) returns (callbackRuns: bool)
      requires Is(s) && s.own == Some(Slot(Begin, Some(ok)))
      modifies this`begun, this`ending
      ensures Is(DoRecord(s)) && callbackRuns == (DoRecord(s).phase == Running)
    {
      if ok { begun := true; }
      callbackRuns := ok && ending == Unset;
      if !callbackRuns && ending == Unset { ending := Died; }
    }

    /** The callback has returned and the worker is idle: what the runner sends, if anything. */
    method Conclude(autoCommit: bool, judged: bool, ghost s: State) returns (sends: Option<Msg>)
      requires Is(s) && Enabled(s, Event.Conclude) && autoCommit == s.autoCommit && judged == (s.left == None)
      requires OwnFits(s)
      modifies this`pending, this`ending
      ensures Is(Apply(s, Event.Conclude))
      ensures match Apply(s, Event.Conclude).own
              case None => sends == None
              case Some(slot) => sends == Some(slot.msg)
    {
      if done {
        if ending == Unset { ending := RolledBackEnd; }
        return None;
      }
      if ending == Died || !judged { return None; }
      pending := Nothing;
      sends := Some(if autoCommit then Commit else Rollback);
    }

    /** On the way out of a failure: whether a ROLLBACK is still owed to the connection. */
    method OwesRollback(inTransaction: Option<bool>, ghost s: State) returns (owes: bool)
      requires Is(s) && s.reported == inTransaction && Enabled(s, Repair) && s.own == None
      modifies this`pending, this`ending
      ensures Is(Apply(s, Repair)) && owes == (Apply(s, Repair).own != None)
    {
      owes := begun && !done && inTransaction != Some(false);
      if owes {
        pending := Nothing;
      } else if ending == Unset {
        ending := RolledBackEnd;
      }
    }
  }
}
