/**
  * `transaction()`: the runner, the handle it gives its callback, and the
  * worker's connection, as a machine over posted messages. A message is posted,
  * runs on the worker, ends there, and then settles for whoever posted it; the
  * pool lets one message at a time be on the worker.
  *
  * Data is the list of statements applied to it: any effect a statement has is a
  * function of that list.
  */
module Transaction {
  import opened Basics
  import opened Savepoints

  /** The worker's own savepoint around a write its caller may abandon. */
  const LIBRARY_SAVEPOINT := "__bsq_sp"

  type Data = seq<nat>

  datatype Phase =
    | Starting      // the lease was granted
    | Beginning     // BEGIN is on the worker
    | Running       // the callback runs
    | Closing       // the callback returned; what it left open is being closed
    | Concluding    // the runner's own COMMIT or ROLLBACK is on the worker
    | Failing       // transaction() is about to reject; what was left open is being closed
    | Repairing     // the ROLLBACK owed by a failure is on the worker
    | Over          // about to hand the lease back
    | Returned      // the lease was released

  datatype Ending = Unset | Committed | RolledBackEnd | Died

  datatype Conclude = Nothing | ReleaseIt | UndoIt

  datatype Msg =
    | Begin
    | Stmt(id: nat, saved: bool)
    | Mark(name: string)
    | Drop(name: string)
    | Back(name: string)
    | Commit
    | Rollback

  /** A message on the worker (`ended` is None), or ended there and not yet settled. */
  datatype Slot = Slot(msg: Msg, ended: Option<bool>)

  /**
    * What was posted, in post order, as the consumer means it: the statements,
    * whether each succeeded and whether its own signal abandoned it, and the
    * consumer's savepoint operations that succeeded.
    */
  datatype Logged =
    | Write(id: nat, succeeded: bool, abandoned: bool)
    | Opened(name: string)
    | Dropped(name: string)
    | RolledTo(name: string)

  /**
    * The worker's connection: what is committed, whether it is in a transaction,
    * whether a savepoint rather than BEGIN began it, its data and savepoints
    * then, and whether a COMMIT took effect.
    */
  datatype Conn = Conn(committed: Data, inTx: bool, implicit: bool, work: Db<Data>, landed: bool)

  /**
    * For the statements: what the last full ROLLBACK was sent without concluding,
    * whether no ROLLBACK of the handle came to nothing having forgotten something
    * (`Forgets`), and whether an end of the handle's failed having left it.
    */
  datatype Past = Past(forgot: Conclude, tidy: bool, ousted: bool)

  datatype State = State(
    autoCommit: bool,
    phase: Phase,
    begun: bool,
    done: bool,
    ending: Ending,
    pending: Conclude,
    user: Option<Slot>,      // the handle's message
    own: Option<Slot>,       // the runner's message
    left: Option<Slot>,      // a write abandoned by its own signal, still running or not judged
    reported: Option<bool>,  // the connection's last report of being in a transaction
    gone: bool,              // the worker was removed from the pool
    conn: Conn,
    log: seq<Logged>,
    base: Data,
    past: Past)

  /** How a message ends: it succeeds, fails alone, or fails with the connection out of its transaction. */
  datatype Outcome = Succeeds | Fails | Leaves

  datatype Event =
    | BeginNow
    | Post(msg: Msg)
    | RefuseRollback  // the handle's, by the pool: its worker has a query in flight
    | End(outcome: Outcome)
    | Settle
    | Abandon
    | Judge
    | Die
    | CallbackReturns
    | CallbackFails
    | Conclude
    | Record
    | Repair
    | Crash
    | Release

  // ------------------------------------------------------------- the meaning

  function Meant(base: Data, log: seq<Logged>): Db<Data>
  {
    if log == [] then Db(base, [])
    else
      var before := Meant(base, log[..|log| - 1]);
      match log[|log| - 1]
      case Write(id, succeeded, abandoned) =>
        if succeeded && !abandoned then before.(data := before.data + [id]) else before
      case Opened(name) => SqlSavepoint(before, name)
      case Dropped(name) =>
        var r := SqlRelease(before, name);
        if r.Some? then r.value else before
      case RolledTo(name) =>
        var r := SqlRollbackTo(before, name);
        if r.Some? then r.value else before
  }

  // --------------------------------------------------------------- the worker

  predicate OnWorker(slot: Option<Slot>) { slot.Some? && slot.value.ended == None }

  predicate HasEnded(slot: Option<Slot>) { slot.Some? && slot.value.ended.Some? }

  /** The client's reactions to one reply run before the worker's next reply is read. */
  predicate Reacted(s: State) { !HasEnded(s.user) && !HasEnded(s.own) && !HasEnded(s.left) }

  predicate WireFree(s: State) { !OnWorker(s.user) && !OnWorker(s.own) && !OnWorker(s.left) }

  /** `SAVEPOINT name`: outside a transaction it begins one. */
  function OpenSavepoint(c: Conn, name: string): Conn
  {
    if c.inTx then c.(work := SqlSavepoint(c.work, name))
    else c.(inTx := true, implicit := true, work := SqlSavepoint(Db(c.committed, []), name))
  }

  /** `RELEASE name`: the outermost savepoint of a transaction it began commits it. */
  function ReleaseSavepoint(c: Conn, name: string): Conn
  {
    var r := SqlRelease(c.work, name);
    if !c.inTx || r.None? then c
    else if c.implicit && r.value.stack == [] then Conn(r.value.data, false, false, Db(r.value.data, []), c.landed)
    else c.(work := r.value)
  }

  function RollbackTo(c: Conn, name: string): Conn
  {
    var r := SqlRollbackTo(c.work, name);
    if !c.inTx || r.None? then c else c.(work := r.value)
  }

  /** The connection out of its transaction, nothing of it kept. */
  function Discard(c: Conn): Conn { c.(inTx := false, implicit := false, work := Db(c.committed, [])) }

  /** The pending conclusion, which the worker runs before anything else of the message that carries it. */
  function Concluded(c: Conn, conclude: Conclude): Conn
  {
    match conclude
    case Nothing => c
    case ReleaseIt => ReleaseSavepoint(c, LIBRARY_SAVEPOINT)
    case UndoIt => ReleaseSavepoint(RollbackTo(c, LIBRARY_SAVEPOINT), LIBRARY_SAVEPOINT)
  }

  /** What a message that succeeds does to the connection. */
  function Done(c: Conn, msg: Msg): Conn
  {
    match msg
    case Begin => Conn(c.committed, true, false, Db(c.committed, []), c.landed)
    case Stmt(id, _) =>
      if c.inTx then c.(work := c.work.(data := c.work.data + [id])) else c.(committed := c.committed + [id])
    case Mark(name) => OpenSavepoint(c, name)
    case Drop(name) => ReleaseSavepoint(c, name)
    case Back(name) => RollbackTo(c, name)
    case Commit => Conn(c.work.data, false, false, Db(c.work.data, []), true)
    case Rollback => Discard(c)
  }

  /** SQLite begins one transaction at a time, ends only an open one, and knows only open savepoints. */
  predicate CanSucceed(c: Conn, msg: Msg)
  {
    match msg
    case Begin => !c.inTx
    case Stmt(_, _) => true
    case Mark(_) => true
    case Drop(name) => c.inTx && Find(c.work.stack, name) >= 0
    case Back(name) => c.inTx && Find(c.work.stack, name) >= 0
    case Commit => c.inTx
    case Rollback => c.inTx
  }

  predicate IsSaved(msg: Msg) { msg.Stmt? && msg.saved }

  /** The connection once a message has arrived: concluded, and with the message's own savepoint open. */
  function Arrived(c: Conn, conclude: Conclude, msg: Msg): Conn
  {
    var d := Concluded(c, conclude);
    if IsSaved(msg) then OpenSavepoint(d, LIBRARY_SAVEPOINT) else d
  }

  /** A message posted through the transaction's facade takes the pending conclusion with it. */
  function Sent(s: State, msg: Msg): State
  {
    s.(pending := if IsSaved(msg) then ReleaseIt else Nothing,
       conn := if s.gone then s.conn else Arrived(s.conn, s.pending, msg),
       log := if msg.Stmt? then s.log + [Write(msg.id, false, false)] else s.log)
  }

  /** A full ROLLBACK is sent bare: it discards every savepoint. */
  function SentRollback(s: State): State { s.(pending := Nothing, past := s.past.(forgot := s.pending)) }

  function SucceedLast(log: seq<Logged>): seq<Logged>
  {
    if log != [] && log[|log| - 1].Write? then log[|log| - 1 := log[|log| - 1].(succeeded := true)] else log
  }

  function AbandonLast(log: seq<Logged>): seq<Logged>
  {
    if log != [] && log[|log| - 1].Write? then log[|log| - 1 := log[|log| - 1].(abandoned := true)] else log
  }

  function LogDone(log: seq<Logged>, msg: Msg): seq<Logged>
  {
    match msg
    case Stmt(_, _) => SucceedLast(log)
    case Mark(name) => log + [Opened(name)]
    case Drop(name) => log + [Dropped(name)]
    case Back(name) => log + [RolledTo(name)]
    case _ => log
  }

  /** How the message ends on the connection, and what its reply reports. */
  function Effect(s: State, msg: Msg, outcome: Outcome): State
  {
    if s.gone then s else
    var conn := match outcome
                case Fails => s.conn
                case Leaves => Discard(s.conn)
                case Succeeds => Done(s.conn, msg);
    s.(conn := conn, reported := Some(conn.inTx), log := if outcome == Succeeds then LogDone(s.log, msg) else s.log)
  }

  // --------------------------------------------------------------- the runner

  function DieIf(s: State, cond: bool): State
  {
    if cond && s.ending == Unset then s.(ending := Died) else s
  }

  /** A death reported by the connection itself. */
  predicate ConnectionLeft(s: State) { s.begun && s.reported == Some(false) }

  /** The names of the consumer's open savepoints, as the library's copy has them. */
  predicate IsOpen(s: State, name: string)
  {
    exists i :: 0 <= i < |Meant(s.base, s.log).stack| && Meant(s.base, s.log).stack[i].name == name
  }

  predicate IsFresh(s: State, name: string)
  {
    && !SameName(name, LIBRARY_SAVEPOINT)
    && Find(Meant(s.base, s.log).stack, name) < 0
  }

  /** What the handle may post: its statements wait their turn, and nothing reaches the worker once it has ended. */
  predicate MayPost(s: State, msg: Msg)
  {
    && s.begun && s.ending == Unset && s.user == None && s.own == None && s.left == None
    && match msg
       case Begin => false
       case Mark(name) => IsFresh(s, name)
       case Drop(name) => IsOpen(s, name)
       case Back(name) => IsOpen(s, name)
       case _ => true
  }

  predicate Enabled(s: State, e: Event)
  {
    match e
    case BeginNow => s.phase == Starting
    case Post(msg) => MayPost(s, msg)
    case RefuseRollback => s.begun && s.ending == Unset && s.left == None && !WireFree(s)
    case End(outcome) =>
      && !WireFree(s) && Reacted(s)
      && (outcome == Succeeds ==> !s.gone && CanSucceed(s.conn, OnWire(s)))
      && (outcome == Leaves ==> s.conn.inTx && !OnWire(s).Begin?)
    case Settle => s.user.Some? && s.user.value.ended.Some?
    case Abandon => s.user.Some? && s.user.value.msg.Stmt? && s.user.value.msg.saved && s.left == None
    case Judge => s.left.Some? && s.left.value.ended.Some?
    case Die => s.phase != Returned
    case CallbackReturns => s.phase == Running
    case CallbackFails => s.phase == Running
    case Conclude => s.phase == Closing && WireFree(s)
    case Record => s.own.Some? && s.own.value.ended.Some?
    case Repair => s.phase == Failing && WireFree(s)
    case Crash => !s.gone && s.phase != Returned && Reacted(s)
    case Release => s.phase == Over && WireFree(s)
  }

  function OnWire(s: State): Msg
    requires !WireFree(s)
  {
    if OnWorker(s.user) then s.user.value.msg
    else if OnWorker(s.own) then s.own.value.msg
    else s.left.value.msg
  }

  function Apply(s: State, e: Event): State
    requires Enabled(s, e)
  {
    match e
    case BeginNow =>
      if s.ending != Unset then Fail(s) else s.(phase := Beginning, own := Some(Slot(Begin, None)))
    case Post(msg) =>
      var t := if msg.Rollback? then SentRollback(s) else Sent(s, msg);
      t.(user := Some(Slot(msg, None)))
    case RefuseRollback =>
      // the conclusion is forgotten before the pool is asked
      s.(pending := Nothing, past := s.past.(tidy := s.past.tidy && !Forgets(s, e)))
    case End(outcome) => DoEnd(s, outcome)
    case Settle => DoSettle(s)
    case Abandon =>
      s.(pending := UndoIt, left := s.user, user := None, log := AbandonLast(s.log))
    case Judge => DieIf(s.(left := None), ConnectionLeft(s))
    case Die => DieIf(s, true)
    case CallbackReturns => s.(phase := Closing)
    case CallbackFails => Fail(s)
    case Conclude => DoConclude(s)
    case Record => DoRecord(s)
    case Repair =>
      if s.begun && !s.done && s.reported != Some(false)
      then SentRollback(s).(phase := Repairing, own := Some(Slot(Rollback, None)))
      else Finish(s)
    case Crash => DoCrash(s)
    case Release => s.(phase := Returned)
  }

  /** The rejection path starts by killing what has not ended. */
  function Fail(s: State): State { DieIf(s, true).(phase := Failing) }

  /** No path out leaves the handle open. */
  function Finish(s: State): State
  {
    s.(phase := Over, ending := if s.ending == Unset then RolledBackEnd else s.ending)
  }

  function Ended(slot: Option<Slot>, ok: bool): Option<Slot>
  {
    if OnWorker(slot) then Some(slot.value.(ended := Some(ok))) else slot
  }

  function DoEnd(s: State, outcome: Outcome): State
    requires !WireFree(s)
  {
    var msg := OnWire(s);
    var ok := outcome == Succeeds;
    var t := Effect(s, msg, outcome);
    t.(user := Ended(s.user, ok), own := Ended(s.own, ok), left := Ended(s.left, ok), past := PastOf(s, outcome))
  }

  function PastOf(s: State, outcome: Outcome): Past
  {
    s.past.(tidy := s.past.tidy && !Forgets(s, End(outcome)),
            ousted := s.past.ousted || ((Holds(s.user, Commit) || Holds(s.user, Rollback)) && outcome == Leaves))
  }

  /**
    * A ROLLBACK of the handle comes to nothing having forgotten a conclusion: it
    * fails on the open transaction, or the pool refuses it while the write the
    * conclusion is about is on the worker.
    */
  predicate Forgets(s: State, e: Event)
  {
    match e
    case End(outcome) =>
      && outcome == Fails && OnWorker(s.user) && s.user.value.msg.Rollback?
      && !s.gone && s.conn.inTx && s.ending == Unset && s.past.forgot != Nothing
    case RefuseRollback => OnWorker(s.user) && !s.gone && s.pending != Nothing
    case _ => false
  }

  predicate Holds(slot: Option<Slot>, msg: Msg) { slot.Some? && slot.value.msg == msg }

  /** A handle's message settles; a COMMIT that succeeded is recorded over a death, a ROLLBACK is not. */
  function DoSettle(s: State): State
    requires s.user.Some? && s.user.value.ended.Some?
  {
    var Slot(msg, ended) := s.user.value;
    var t := s.(user := None);
    match msg
    case Commit => if ended.value then t.(done := true, ending := Committed) else t
    case Rollback =>
      if ended.value then t.(done := true, ending := if s.ending == Unset then RolledBackEnd else s.ending) else t
    case Stmt(_, _) => DieIf(t, ConnectionLeft(s))
    case _ => DieIf(t, !ended.value)
  }

  /** The runner's message settles: BEGIN, the automatic end, or the ROLLBACK owed by a failure. */
  function DoRecord(s: State): State
    requires s.own.Some? && s.own.value.ended.Some?
  {
    var Slot(msg, ended) := s.own.value;
    var t := s.(own := None);
    match msg
    case Begin =>
      if !ended.value then Fail(t)
      else if s.ending != Unset then Fail(t.(begun := true))
      else t.(begun := true, phase := Running)
    case Commit => if ended.value then Finish(t.(done := true, ending := Committed)) else Fail(t)
    case Rollback =>
      if ended.value
      then Finish(t.(done := true, ending := if s.ending == Unset then RolledBackEnd else s.ending))
      else if s.phase == Repairing then Finish(t.(gone := true)) // the worker is evicted
      else Fail(t)
    case _ => t
  }

  /** The callback has returned and the worker is idle. */
  function DoConclude(s: State): State
  {
    if s.done then Finish(s)
    else if s.ending == Died then Fail(s)
    else if s.left.Some? then s // waits for the abandoned write to be judged
    else if s.autoCommit then Sent(s, Commit).(phase := Concluding, own := Some(Slot(Commit, None)))
    else SentRollback(s).(phase := Concluding, own := Some(Slot(Rollback, None)))
  }

  /** The worker is lost: its slot is emptied, what was on it fails, its uncommitted work is gone. */
  function DoCrash(s: State): State
  {
    s.(gone := true, conn := Discard(s.conn),
       user := Ended(s.user, false), own := Ended(s.own, false), left := Ended(s.left, false))
  }

  // ------------------------------------------------------------------- runs

  predicate Init(s: State)
  {
    && s.phase == Starting && !s.begun && !s.done && s.ending == Unset && s.pending == Nothing
    && s.user == None && s.own == None && s.left == None
    && s.reported != Some(true) && !s.gone && !s.conn.inTx && !s.conn.implicit && s.log == [] && !s.conn.landed
    && s.conn.committed == s.base && s.conn.work == Db(s.base, [])
    && s.past == Past(Nothing, true, false)
  }

  predicate CanRun(s: State, events: seq<Event>)
    decreases |events|
  {
    events == [] || (Enabled(s, events[0]) && CanRun(Apply(s, events[0]), events[1..]))
  }

  function Run(s: State, events: seq<Event>): State
    requires CanRun(s, events)
    decreases |events|
  {
    if events == [] then s else Run(Apply(s, events[0]), events[1..])
  }

  // ------------------------------------------------------------ clean ending

  predicate IsEnd(msg: Msg) { msg.Commit? || msg.Rollback? }

  /** The runner's message belongs to its phase. */
  predicate OwnFits(s: State)
  {
    match s.phase
    case Beginning => s.own.Some? && s.own.value.msg.Begin?
    case Concluding => s.own.Some? && IsEnd(s.own.value.msg)
    case Repairing => s.own.Some? && s.own.value.msg.Rollback?
    case _ => s.own == None
  }

  predicate EndedWell(slot: Option<Slot>) { slot.Some? && IsEnd(slot.value.msg) && slot.value.ended == Some(true) }

  predicate Clean(s: State)
  {
    && OwnFits(s)
    && (s.conn.implicit ==> s.conn.inTx)
    // reports are accurate
    && (!s.gone && WireFree(s) ==> s.reported == Some(s.conn.inTx) || (s.reported == None && !s.conn.inTx))
    // at most one message is on the worker
    && (OnWorker(s.user) ==> s.own == None && s.left == None && !s.done)
    && (OnWorker(s.left) ==> s.own == None && !s.done)
    && (s.done ==> s.begun)
    && (s.left.Some? ==> s.user == None && s.left.value.msg.Stmt?)
    // before BEGIN
    && (!s.begun ==>
          && s.user == None && s.left == None
          && !s.phase.Running? && !s.phase.Closing? && !s.phase.Concluding? && !s.phase.Repairing?
          && (s.conn.inTx ==> s.phase == Beginning && s.own.value.ended == Some(true)))
    && (s.phase.Starting? || s.phase.Beginning? ==> !s.begun)
    && (s.phase.Failing? || s.phase.Repairing? ==> s.ending != Unset)
    // an end that succeeded is final
    && (EndedWell(s.user) || EndedWell(s.own) || s.done ==> s.gone || !s.conn.inTx)
    && (s.done ==> s.ending != Unset)
    && (s.ending == Committed ==> s.done)
    && (s.phase == Over || s.phase == Returned ==> s.ending != Unset && (s.gone || !s.conn.inTx) && WireFree(s))
  }

  lemma PostKeepsClean(s: State, msg: Msg)
    requires Clean(s) && Enabled(s, Post(msg))
    ensures Clean(Apply(s, Post(msg)))
  {
  }

  lemma EndKeepsClean(s: State, outcome: Outcome)
    requires Clean(s) && Enabled(s, End(outcome))
    ensures Clean(Apply(s, End(outcome)))
  {
  }

  lemma SettleKeepsClean(s: State)
    requires Clean(s) && Enabled(s, Settle)
    ensures Clean(Apply(s, Settle))
  {
    var t := Apply(s, Settle);
    assert t == DoSettle(s) && t.user == None && t.own == s.own && t.left == s.left && t.conn == s.conn;
    assert t.phase == s.phase && t.reported == s.reported && t.begun == s.begun && t.gone == s.gone;
    if IsEnd(s.user.value.msg) && s.user.value.ended.value {
      assert t.done;
    } else {
      assert t.done == s.done;
    }
  }

  lemma ConcludeKeepsClean(s: State)
    requires Clean(s) && Enabled(s, Conclude)
    ensures Clean(Apply(s, Conclude))
  {
  }

  lemma RecordBeginKeepsClean(s: State)
    requires Clean(s) && Enabled(s, Record) && s.own.value.msg.Begin?
    ensures Clean(Apply(s, Record))
  {
  }

  lemma RecordCommitKeepsClean(s: State)
    requires Clean(s) && Enabled(s, Record) && s.own.value.msg.Commit?
    ensures Clean(Apply(s, Record))
  {
    var t := Apply(s, Record);
    assert t == DoRecord(s) && t.own == None;
    assert t.conn == s.conn && t.user == s.user && t.left == s.left && t.reported == s.reported && t.begun == s.begun;
    if s.own.value.ended.value {
      assert t.phase == Over && t.done;
    } else {
      assert t.phase == Failing && t.done == s.done;
    }
  }

  lemma RecordRollbackKeepsClean(s: State)
    requires Clean(s) && Enabled(s, Record) && s.own.value.msg.Rollback?
    ensures Clean(Apply(s, Record))
  {
    var t := Apply(s, Record);
    assert t == DoRecord(s);
    assert t.conn == s.conn && t.user == s.user && t.left == s.left && t.reported == s.reported && t.begun == s.begun;
    if s.own.value.ended.value {
      assert t.phase == Over;
    } else if s.phase == Repairing {
      assert t.phase == Over && t.gone;
    } else {
      assert t.phase == Failing;
    }
  }

  // ------------------------------------------------- what the ending records

  predicate CommitEndedWell(slot: Option<Slot>) { EndedWell(slot) && slot.value.msg.Commit? }

  /** `ending` and `done` against the COMMIT and ROLLBACK that took effect. */
  predicate Recorded(s: State)
  {
    && !(EndedWell(s.user) && EndedWell(s.own))
    && (s.done ==> !EndedWell(s.user) && !EndedWell(s.own))
    && (s.ending == RolledBackEnd ==> s.done)
    && (s.ending == Committed || CommitEndedWell(s.user) || CommitEndedWell(s.own) ==> s.conn.landed)
    && (s.conn.landed ==>
          && (s.ending == Committed || CommitEndedWell(s.user) || CommitEndedWell(s.own))
          && !s.conn.inTx && !OnWorker(s.user) && !OnWorker(s.left) && s.begun)
  }

  lemma PostKeepsRecorded(s: State, msg: Msg)
    requires Clean(s) && Recorded(s) && Enabled(s, Post(msg))
    ensures Recorded(Apply(s, Post(msg)))
  {
    assert !s.conn.landed && !s.done;
    ArrivesUnlanded(s.conn, s.pending, msg);
    var t := Apply(s, Post(msg));
    assert !t.conn.landed && !t.done && t.ending == Unset && t.own == None;
  }

  lemma ArrivesUnlanded(c: Conn, conclude: Conclude, msg: Msg)
    ensures Arrived(c, conclude, msg).landed == c.landed
  {
  }

  lemma EndKeepsRecorded(s: State, outcome: Outcome)
    requires Clean(s) && Recorded(s) && Enabled(s, End(outcome))
    ensures Recorded(Apply(s, End(outcome)))
  {
  }

  lemma SettleKeepsRecorded(s: State)
    requires Clean(s) && Recorded(s) && Enabled(s, Settle)
    ensures Recorded(Apply(s, Settle))
  {
  }

  lemma ConcludeKeepsRecorded(s: State)
    requires Clean(s) && Recorded(s) && Enabled(s, Conclude)
    ensures Recorded(Apply(s, Conclude))
  {
  }

  lemma RecordBeginKeepsRecorded(s: State)
    requires Clean(s) && Recorded(s) && Enabled(s, Record) && s.own.value.msg.Begin?
    ensures Recorded(Apply(s, Record))
  {
  }

  lemma RecordCommitKeepsRecorded(s: State)
    requires Clean(s) && Recorded(s) && Enabled(s, Record) && s.own.value.msg.Commit?
    ensures Recorded(Apply(s, Record))
  {
    var t := Apply(s, Record);
    assert t == DoRecord(s) && t.conn == s.conn && t.user == s.user && t.left == s.left && t.own == None;
  }

  lemma RecordRollbackKeepsRecorded(s: State)
    requires Clean(s) && Recorded(s) && Enabled(s, Record) && s.own.value.msg.Rollback?
    ensures Recorded(Apply(s, Record))
  {
    var t := Apply(s, Record);
    assert t == DoRecord(s) && t.conn == s.conn && t.user == s.user && t.left == s.left && t.own == None;
    assert t.begun == s.begun && (t.ending == s.ending || s.ending == Unset);
    if s.own.value.ended.value {
      assert t.done && !EndedWell(t.user);
    } else {
      assert t.done == s.done;
    }
  }

  lemma BeginNowKeeps(s: State)
    requires Clean(s) && Recorded(s) && Enabled(s, BeginNow)
    ensures Clean(Apply(s, BeginNow)) && Recorded(Apply(s, BeginNow))
  {
  }

  lemma RefuseRollbackKeeps(s: State)
    requires Clean(s) && Recorded(s) && Enabled(s, RefuseRollback)
    ensures Clean(Apply(s, RefuseRollback)) && Recorded(Apply(s, RefuseRollback))
  {
  }

  lemma AbandonKeeps(s: State)
    requires Clean(s) && Recorded(s) && Enabled(s, Abandon)
    ensures Clean(Apply(s, Abandon)) && Recorded(Apply(s, Abandon))
  {
  }

  lemma JudgeKeeps(s: State)
    requires Clean(s) && Recorded(s) && Enabled(s, Judge)
    ensures Clean(Apply(s, Judge)) && Recorded(Apply(s, Judge))
  {
  }

  lemma DieKeeps(s: State)
    requires Clean(s) && Recorded(s) && Enabled(s, Die)
    ensures Clean(Apply(s, Die)) && Recorded(Apply(s, Die))
  {
  }

  lemma CallbackReturnsKeeps(s: State)
    requires Clean(s) && Recorded(s) && Enabled(s, CallbackReturns)
    ensures Clean(Apply(s, CallbackReturns)) && Recorded(Apply(s, CallbackReturns))
  {
  }

  lemma CallbackFailsKeeps(s: State)
    requires Clean(s) && Recorded(s) && Enabled(s, CallbackFails)
    ensures Clean(Apply(s, CallbackFails)) && Recorded(Apply(s, CallbackFails))
  {
  }

  lemma RepairKeeps(s: State)
    requires Clean(s) && Recorded(s) && Enabled(s, Repair)
    ensures Clean(Apply(s, Repair)) && Recorded(Apply(s, Repair))
  {
  }

  lemma CrashKeeps(s: State)
    requires Clean(s) && Recorded(s) && Enabled(s, Crash)
    ensures Clean(Apply(s, Crash)) && Recorded(Apply(s, Crash))
  {
  }

  lemma ReleaseKeeps(s: State)
    requires Clean(s) && Recorded(s) && Enabled(s, Release)
    ensures Clean(Apply(s, Release)) && Recorded(Apply(s, Release))
  {
  }

  lemma RecordKeeps(s: State)
    requires Clean(s) && Recorded(s) && Enabled(s, Record)
    ensures Clean(Apply(s, Record)) && Recorded(Apply(s, Record))
  {
    match s.own.value.msg
    case Begin => RecordBeginKeepsClean(s); RecordBeginKeepsRecorded(s);
    case Commit => RecordCommitKeepsClean(s); RecordCommitKeepsRecorded(s);
    case Rollback => RecordRollbackKeepsClean(s); RecordRollbackKeepsRecorded(s);
    case _ => assert false;
  }

  lemma StepKeeps(s: State, e: Event)
    requires Clean(s) && Recorded(s) && Enabled(s, e)
    ensures Clean(Apply(s, e)) && Recorded(Apply(s, e))
  {
    match e
    case BeginNow => BeginNowKeeps(s);
    case Post(msg) => PostKeepsClean(s, msg); PostKeepsRecorded(s, msg);
    case RefuseRollback => RefuseRollbackKeeps(s);
    case End(outcome) => EndKeepsClean(s, outcome); EndKeepsRecorded(s, outcome);
    case Settle => SettleKeepsClean(s); SettleKeepsRecorded(s);
    case Abandon => AbandonKeeps(s);
    case Judge => JudgeKeeps(s);
    case Die => DieKeeps(s);
    case CallbackReturns => CallbackReturnsKeeps(s);
    case CallbackFails => CallbackFailsKeeps(s);
    case Conclude => ConcludeKeepsClean(s); ConcludeKeepsRecorded(s);
    case Record => RecordKeeps(s);
    case Repair => RepairKeeps(s);
    case Crash => CrashKeeps(s);
    case Release => ReleaseKeeps(s);
  }

  /** How `ending` may move, however long the run. */
  predicate Follows(later: Ending, earlier: Ending)
  {
    later == earlier || earlier == Unset || (earlier == Died && later == Committed)
  }

  /** A message of the runner settles: what it may do to the ending, and nothing to the data. */
  lemma RecordMovesEnding(s: State)
    requires Clean(s) && Recorded(s) && Enabled(s, Record)
    ensures var t := Apply(s, Record);
            Follows(t.ending, s.ending) && t.conn == s.conn && t.own == None && t.user == s.user
  {
    assert s.ending == RolledBackEnd ==> s.done && !EndedWell(s.own);
    RecordFrame(s);
  }

  lemma RecordFrame(s: State)
    requires Enabled(s, Record)
    ensures var t := Apply(s, Record);
            && t.conn == s.conn && t.own == None && t.user == s.user
            && (t.ending == s.ending || s.ending == Unset || (t.ending == Committed && CommitEndedWell(s.own)))
  {
    var t, own := DoRecord(s), s.own.value;
    assert Fail(s.(own := None)).conn == s.conn;
    match own.msg
    case Begin =>
    case Commit =>
    case Rollback => assert t.user == s.user && t.conn == s.conn;
    case _ =>
  }

  lemma SettleMovesEnding(s: State)
    requires Clean(s) && Recorded(s) && Enabled(s, Settle)
    ensures var t := Apply(s, Settle);
            Follows(t.ending, s.ending) && t.conn == s.conn && t.own == s.own && t.user == None
  {
  }

  lemma StepMovesEnding(s: State, e: Event)
    requires Clean(s) && Recorded(s) && Enabled(s, e)
    ensures Follows(Apply(s, e).ending, s.ending)
  {
    match e
    case BeginNow =>
    case Post(msg) =>
    case RefuseRollback =>
    case End(outcome) =>
    case Settle => SettleMovesEnding(s);
    case Abandon =>
    case Judge =>
    case Die =>
    case CallbackReturns =>
    case CallbackFails =>
    case Conclude =>
    case Record => RecordMovesEnding(s);
    case Repair =>
    case Crash =>
    case Release =>
  }

  /** Data that landed stays as it is, whatever is posted or ends. */
  lemma EndAfterLanding(s: State, outcome: Outcome)
    requires Clean(s) && Recorded(s) && Enabled(s, End(outcome)) && s.conn.landed
    ensures Apply(s, End(outcome)).conn.landed && Apply(s, End(outcome)).conn.committed == s.conn.committed
    ensures var t := Apply(s, End(outcome)); !OnWorker(t.own) && !OnWorker(t.user)
  {
  }

  lemma ConcludeAfterLanding(s: State)
    requires Clean(s) && Recorded(s) && Enabled(s, Conclude)
    ensures var t := Apply(s, Conclude);
            && (s.conn.landed ==> t.conn.landed && t.conn.committed == s.conn.committed)
            && (s.ending == Committed ==> t.own == s.own && t.user == s.user)
  {
  }

  /** Data that landed stays as it is; a recorded commit is the last word sent to the worker. */
  lemma StepAfterLanding(s: State, e: Event)
    requires Clean(s) && Recorded(s) && Enabled(s, e)
    ensures s.conn.landed ==> Apply(s, e).conn.landed && Apply(s, e).conn.committed == s.conn.committed
    ensures s.ending == Committed ==>
              && (OnWorker(Apply(s, e).user) ==> Apply(s, e).user == s.user)
              && (OnWorker(Apply(s, e).own) ==> Apply(s, e).own == s.own)
  {
    match e
    case BeginNow =>
    case Post(msg) =>
    case RefuseRollback =>
    case End(outcome) => if s.conn.landed { EndAfterLanding(s, outcome); }
    case Settle => SettleMovesEnding(s);
    case Abandon =>
    case Judge =>
    case Die =>
    case CallbackReturns =>
    case CallbackFails =>
    case Conclude => ConcludeAfterLanding(s);
    case Record => RecordMovesEnding(s);
    case Repair =>
    case Crash =>
    case Release =>
  }

  lemma {:induction false} RunKeeps(s: State, events: seq<Event>)
    requires Clean(s) && Recorded(s) && CanRun(s, events)
    ensures Clean(Run(s, events)) && Recorded(Run(s, events))
    ensures Follows(Run(s, events).ending, s.ending)
    ensures s.conn.landed ==> Run(s, events).conn.landed && Run(s, events).conn.committed == s.conn.committed
    decreases |events|
  {
    if events != [] {
      StepKeeps(s, events[0]);
      StepMovesEnding(s, events[0]);
      StepAfterLanding(s, events[0]);
      RunKeeps(Apply(s, events[0]), events[1..]);
    }
  }

  lemma InitKeeps(s: State)
    requires Init(s)
    ensures Clean(s) && Recorded(s)
  {
    assert s.reported.Some? ==> !s.reported.value;
  }

  /**
    * However a transaction ends, its lease goes back with the connection out of
    * its transaction, or with the worker removed; `ending` is set, and a COMMIT
    * took effect exactly when it says committed, or is about to: the handle's
    * COMMIT has its reply.
    */
  lemma CleanEnding(s: State, events: seq<Event>)
    requires Init(s) && CanRun(s, events) && Run(s, events).phase == Returned
    ensures var t := Run(s, events); t.gone || !t.conn.inTx
    ensures var t := Run(s, events); t.ending != Unset
    ensures var t := Run(s, events); t.conn.landed <==> t.ending == Committed || CommitEndedWell(t.user)
  {
    InitKeeps(s);
    RunKeeps(s, events);
  }
}
