/**
  * A transaction's savepoints: SQLite's own stack, and the library's copy of it.
  * The copy refuses, closes and answers without asking SQLite, so it has to
  * equal SQLite's after every operation.
  */
module Savepoints {
  import opened Basics

  // ------------------------------------------------------------ SQLite's stack

  /** A savepoint and the data as it was when it was opened. */
  datatype Frame<D> = Frame(name: string, saved: D)

  /** A connection inside a transaction: its data, and its open savepoints, outermost first. */
  datatype Db<D> = Db(data: D, stack: seq<Frame<D>>)

  function LowerChar(c: char): char
  {
    if 'A' <= c <= 'Z' then (c as int + 32) as char else c
  }

  function Lower(s: string): (r: string)
    ensures |r| == |s|
    ensures forall i | 0 <= i < |s| :: r[i] == LowerChar(s[i])
  {
    if s == "" then "" else [LowerChar(s[0])] + Lower(s[1..])
  }

  /** SQLite compares savepoint names ignoring ASCII case. */
  predicate SameName(a: string, b: string) { Lower(a) == Lower(b) }

  /** The most recent savepoint of that name, or -1. */
  function Find<D>(stack: seq<Frame<D>>, name: string): (i: int)
    ensures -1 <= i < |stack|
    ensures i >= 0 ==> SameName(stack[i].name, name)
    ensures forall k | i < k < |stack| :: !SameName(stack[k].name, name)
  {
    if stack == [] then -1
    else if SameName(stack[|stack| - 1].name, name) then |stack| - 1
    else Find(stack[..|stack| - 1], name)
  }

  function SqlSavepoint<D>(db: Db<D>, name: string): Db<D>
  {
    db.(stack := db.stack + [Frame(name, db.data)])
  }

  /** `RELEASE name`: None when SQLite has no such savepoint. */
  function SqlRelease<D>(db: Db<D>, name: string): Option<Db<D>>
  {
    var i := Find(db.stack, name);
    if i < 0 then None else Some(db.(stack := db.stack[..i]))
  }

  /** `ROLLBACK TO name`: closes what was opened after it, and keeps it. */
  function SqlRollbackTo<D>(db: Db<D>, name: string): Option<Db<D>>
  {
    var i := Find(db.stack, name);
    if i < 0 then None else Some(Db(db.stack[i].saved, db.stack[..i + 1]))
  }

  ghost predicate Distinct<D>(stack: seq<Frame<D>>)
  {
    forall i, j | 0 <= i < j < |stack| :: !SameName(stack[i].name, stack[j].name)
  }

  /** Among distinct names, a name addresses the savepoint that carries it. */
  lemma NameAddresses<D>(stack: seq<Frame<D>>, i: nat)
    requires Distinct(stack) && i < |stack|
    ensures Find(stack, stack[i].name) == i
  {
    var k := Find(stack, stack[i].name);
    assert k >= i;
    assert k > i ==> !SameName(stack[i].name, stack[k].name);
  }

  // ------------------------------------------------------- the library's copy

  const RESERVED_PREFIX := "__bsq_"

  datatype Closing = ByRelease | ByRollback

  datatype Closure = Closure(how: Closing, savepoint: string)

  datatype EntryState = Open | Released | RolledBack

  datatype NameArg = Absent | Text(name: string) | NotAString

  datatype Opened<E> = Entry(entry: E) | Chosen | NotAName | Reserved | AlreadyOpen(clash: string)

  /** `Send`: the operation has SQL to run. `Noop`: what it promises is already true. */
  datatype Step = Send | Noop | Refused(cause: Option<Closure>)

  predicate IsReserved(key: string) { StartsWith(key, RESERVED_PREFIX) }

  function GeneratedName(k: nat): string { RESERVED_PREFIX + "sp_" + Decimal(k) }

  /**
    * What the model asks of `toLowerCase()`: it folds at least ASCII case. It may
    * fold more, and then only refuses a name SQLite would accept.
    */
  ghost predicate FoldsAscii(keyOf: string -> string)
  {
    && (forall a, b {:trigger keyOf(a), keyOf(b)} :: SameName(a, b) ==> keyOf(a) == keyOf(b))
    && (forall a {:trigger keyOf(a)} :: IsReserved(Lower(a)) ==> IsReserved(keyOf(a)))
  }

  ghost predicate IsGenerated(name: string, upTo: nat)
  {
    exists k: nat :: k <= upTo && name == GeneratedName(k)
  }

  /** Open names are distinct for SQLite, and only the library's own are in its reserved space. */
  ghost predicate NamesValid<D>(stack: seq<Frame<D>>, generated: nat)
  {
    && Distinct(stack)
    && forall i | 0 <= i < |stack| :: IsReserved(Lower(stack[i].name)) ==> IsGenerated(stack[i].name, generated)
  }

  /** A consumer's name is taken unless empty, holding NUL, reserved, or the name of an open savepoint. */
  predicate Acceptable<D>(keyOf: string -> string, name: string, stack: seq<Frame<D>>)
  {
    && name != "" && '\0' !in name && !IsReserved(keyOf(name))
    && forall i | 0 <= i < |stack| :: keyOf(stack[i].name) != keyOf(name)
  }

  lemma AcceptedNameIsNew<D>(keyOf: string -> string, name: string, stack: seq<Frame<D>>, generated: nat, saved: D)
    requires FoldsAscii(keyOf) && NamesValid(stack, generated) && Acceptable(keyOf, name, stack)
    ensures NamesValid(stack + [Frame(name, saved)], generated)
  {
    var r := stack + [Frame(name, saved)];
    forall i, j | 0 <= i < j < |r|
      ensures !SameName(r[i].name, r[j].name)
    {
      assert j < |stack| || (keyOf(r[i].name) != keyOf(name) && r[j].name == name);
    }
  }

  lemma GeneratedNameIsNew<D>(stack: seq<Frame<D>>, generated: nat, saved: D)
    requires NamesValid(stack, generated)
    ensures NamesValid(stack + [Frame(GeneratedName(generated + 1), saved)], generated + 1)
  {
    var name := GeneratedName(generated + 1);
    var r := stack + [Frame(name, saved)];
    GeneratedNamesAreReserved(generated + 1);
    forall i | 0 <= i < |r| && IsReserved(Lower(r[i].name))
      ensures IsGenerated(r[i].name, generated + 1)
    {
      if i < |stack| {
        var g: nat :| g <= generated && stack[i].name == GeneratedName(g);
      }
    }
    forall i | 0 <= i < |stack|
      ensures !SameName(r[i].name, name)
    {
      if SameName(r[i].name, name) {
        var g: nat :| g <= generated && stack[i].name == GeneratedName(g);
        GeneratedNamesDiffer(g, generated + 1);
        assert false;
      }
    }
  }

  lemma GeneratedNamesDiffer(j: nat, k: nat)
    requires SameName(GeneratedName(j), GeneratedName(k))
    ensures j == k
  {
    var a, b := GeneratedName(j), GeneratedName(k);
    assert forall i | 0 <= i < |a| :: Lower(a)[i] == a[i];
    assert forall i | 0 <= i < |b| :: Lower(b)[i] == b[i];
    assert a == b;
    assert a[9..] == Decimal(j) && b[9..] == Decimal(k);
  }

  lemma GeneratedNamesAreReserved(k: nat)
    ensures IsReserved(Lower(GeneratedName(k)))
  {
    var a := GeneratedName(k);
    assert Lower(a)[..6] == RESERVED_PREFIX;
  }

  /** One savepoint; `atOpen` is the data when it was opened, known to the statements only. */
  class SavepointEntry<D> {
    const name: string
    ghost const atOpen: D
    var state: EntryState
    var closedBy: Option<Closure>

    constructor (name: string, ghost atOpen: D)
      ensures this.name == name && this.atOpen == atOpen && state == Open && closedBy == None
    {
      this.name := name;
      this.atOpen := atOpen;
      state := Open;
      closedBy := None;
    }
  }

  /**
    * `db` is SQLite's side after every statement sent so far, and `entries` every
    * savepoint ever opened, for the statements only.
    */
  class SavepointStack<D> {
    const keyOf: string -> string
    var stack: seq<SavepointEntry<D>>
    var generated: nat
    ghost var db: Db<D>
    ghost var entries: set<SavepointEntry<D>>

    /** The copy equals SQLite's stack, savepoint by savepoint, and exactly its entries are open. */
    ghost predicate Valid()
      reads this, entries
    {
      && FoldsAscii(keyOf)
      && Tracked()
      && (forall e | e in entries :: e.state == Open <==> e in stack)
      && (forall e | e in entries :: e.state == Open <==> e.closedBy == None)
      && Mirrors(stack, db.stack)
      && NamesValid(db.stack, generated)
    }

    ghost predicate Tracked()
      reads this
    {
      && (forall i | 0 <= i < |stack| :: stack[i] in entries)
      && (forall i, j | 0 <= i < j < |stack| :: stack[i] != stack[j])
    }

    ghost predicate Mirrors(copy: seq<SavepointEntry<D>>, frames: seq<Frame<D>>)
    {
      && |frames| == |copy|
      && forall i | 0 <= i < |copy| :: frames[i] == Frame(copy[i].name, copy[i].atOpen)
    }

    constructor (keyOf: string -> string, ghost data: D)
      requires FoldsAscii(keyOf)
      ensures Valid() && stack == [] && entries == {} && db == Db(data, [])
    {
      this.keyOf := keyOf;
      stack, generated := [], 0;
      db, entries := Db(data, []), {};
    }

    /** Any statement that is not a savepoint operation: the data changes, the stack does not. */
    ghost method Statement(data: D)
      requires Valid()
      modifies this`db
      ensures Valid() && db == old(db).(data := data)
    {
      db := db.(data := data);
    }

    /** Why a consumer's name is refused, if it is. */
    method Check(name: string) returns (refusal: Opened<SavepointEntry<D>>)
      requires Valid()
      ensures Acceptable(keyOf, name, db.stack) <==> refusal == Chosen
      ensures refusal == NotAName <==> name == "" || '\0' in name
      ensures refusal == Reserved <==> name != "" && '\0' !in name && IsReserved(keyOf(name))
      ensures refusal.AlreadyOpen? ==> exists i :: 0 <= i < |stack| && stack[i].name == refusal.clash && keyOf(refusal.clash) == keyOf(name)
      ensures !refusal.Entry?
    {
      if name == "" || '\0' in name { return NotAName; }
      if IsReserved(keyOf(name)) { return Reserved; }
      for i := 0 to |stack|
        invariant forall k | 0 <= k < i :: keyOf(db.stack[k].name) != keyOf(name)
      {
        if keyOf(stack[i].name) == keyOf(name) {
          assert keyOf(db.stack[i].name) == keyOf(name);
          return AlreadyOpen(stack[i].name);
        }
      }
      refusal := Chosen;
    }

    /** The name a new savepoint gets, or why it is refused. */
    method Choose(arg: NameArg) returns (chosen: string, refusal: Opened<SavepointEntry<D>>)
      requires Valid()
      modifies this`generated
      ensures Valid()
      ensures (arg == Absent || (arg.Text? && Acceptable(keyOf, arg.name, db.stack))) <==> refusal == Chosen
      ensures refusal == Chosen ==> NamesValid(db.stack + [Frame(chosen, db.data)], generated)
      ensures refusal == Chosen && arg.Text? ==> chosen == arg.name
      ensures refusal == NotAName <==> arg == NotAString || (arg.Text? && (arg.name == "" || '\0' in arg.name))
      ensures refusal == Reserved <==> arg.Text? && arg.name != "" && '\0' !in arg.name && IsReserved(keyOf(arg.name))
      ensures !refusal.Entry?
    {
      chosen, refusal := "", Chosen;
      match arg {
        case Absent =>
          GeneratedNameIsNew(db.stack, generated, db.data);
          generated := generated + 1;
          chosen := GeneratedName(generated);
        case NotAString =>
          refusal := NotAName;
        case Text(name) =>
          chosen := name;
          refusal := Check(name);
          if refusal == Chosen { AcceptedNameIsNew(keyOf, name, db.stack, generated, db.data); }
      }
    }

    method OpenSavepoint(arg: NameArg) returns (r: Opened<SavepointEntry<D>>)
      requires Valid()
      modifies this
      ensures Valid()
      ensures r.Entry? <==> arg == Absent || (arg.Text? && Acceptable(keyOf, arg.name, old(db.stack)))
      ensures r.Entry? ==>
        && fresh(r.entry) && r.entry.state == Open && r.entry.atOpen == old(db.data)
        && (arg.Text? ==> r.entry.name == arg.name)
        && stack == old(stack) + [r.entry] && entries == old(entries) + {r.entry}
        && db == SqlSavepoint(old(db), r.entry.name)
      ensures !r.Entry? ==> stack == old(stack) && entries == old(entries) && db == old(db) && r != Chosen
      ensures r == NotAName <==> arg == NotAString || (arg.Text? && (arg.name == "" || '\0' in arg.name))
      ensures r == Reserved <==> arg.Text? && arg.name != "" && '\0' !in arg.name && IsReserved(keyOf(arg.name))
    {
      var chosen;
      chosen, r := Choose(arg);
      if r == Chosen {
        var entry := new SavepointEntry(chosen, db.data);
        stack := stack + [entry];
        entries := entries + {entry};
        db := SqlSavepoint(db, chosen);
        r := Entry(entry);
      }
    }

    /** Marks entries closed, and only them. */
    method MarkClosed(closed: seq<SavepointEntry<D>>, state: EntryState, closure: Closure)
      requires forall e | e in closed :: e in entries
      modifies entries
      ensures forall e | e in closed :: e.state == state && e.closedBy == Some(closure)
      ensures forall e | e in entries && e !in closed :: e.state == old(e.state) && e.closedBy == old(e.closedBy)
    {
      for k := 0 to |closed|
        invariant forall i | 0 <= i < k :: closed[i].state == state && closed[i].closedBy == Some(closure)
        invariant forall e | e in entries && e !in closed :: e.state == old(e.state) && e.closedBy == old(e.closedBy)
      {
        closed[k].state := state;
        closed[k].closedBy := Some(closure);
      }
    }

    /** Pops `stack[index]` and everything above it, recording what closed them; `data` is what SQLite then holds. */
    method Close(index: nat, state: EntryState, closure: Closure, ghost data: D)
      requires index <= |stack| && Valid() && state != Open
      modifies this`stack, this`db, entries
      ensures Valid()
      ensures stack == old(stack)[..index] && db == Db(data, old(db.stack)[..index])
      ensures forall e | e in old(stack)[index..] :: e.state == state && e.closedBy == Some(closure)
      ensures forall e | e in entries && e !in old(stack)[index..] ::
                e.state == old(e.state) && e.closedBy == old(e.closedBy)
    {
      var closed := stack[index..];
      forall e | e in stack
        ensures e in stack[..index] <==> e !in closed
      {
        var i :| 0 <= i < |stack| && stack[i] == e;
        assert i < index ==> stack[..index][i] == e;
        assert i >= index ==> closed[i - index] == e;
      }
      MarkClosed(closed, state, closure);
      stack := stack[..index];
      db := Db(data, db.stack[..index]);
    }

    method IndexOf(entry: SavepointEntry<D>) returns (index: nat)
      requires entry in stack
      ensures index < |stack| && stack[index] == entry
    {
      index := 0;
      while stack[index] != entry
        invariant index < |stack| && entry !in stack[..index]
        decreases |stack| - index
      {
        index := index + 1;
      }
    }

    /**
      * `below` is how many savepoints the released one was opened in. Releasing
      * an open savepoint closes it and everything above it and keeps the data;
      * the SQL sent addresses that savepoint, and SQLite then holds what the copy does.
      */
    method Release(entry: SavepointEntry<D>) returns (r: Step, ghost below: nat)
      requires Valid() && entry in entries
      modifies this`stack, this`db, entries
      ensures Valid()
      ensures r == match old(entry.state)
                   case Open => Send
                   case Released => Noop
                   case RolledBack => Refused(old(entry.closedBy))
      ensures r.Send? ==>
        && below < |old(stack)| && old(stack)[below] == entry
        && SqlRelease(old(db), entry.name) == Some(db) && db.data == old(db.data)
        && (forall e | e in old(stack)[below..] :: e.state == Released && e.closedBy == Some(Closure(ByRelease, entry.name)))
      ensures !r.Send? ==> below == |old(stack)| && db == old(db)
      ensures below <= |old(stack)| && stack == old(stack)[..below]
      ensures forall e | e in entries && e !in old(stack)[below..] :: e.state == old(e.state) && e.closedBy == old(e.closedBy)
    {
      below := |stack|;
      if entry.state == Released { return Noop, below; }
      if entry.state == RolledBack { return Refused(entry.closedBy), below; }
      var index := IndexOf(entry);
      below := index;
      NameAddresses(db.stack, index);
      Close(index, Released, Closure(ByRelease, entry.name), db.data);
      r := Send;
    }

    /**
      * Two statements when it also releases: `ROLLBACK TO`, then `RELEASE`. The
      * data is again what it was when the savepoint was opened.
      */
    method Rollback(entry: SavepointEntry<D>, release: bool) returns (r: Step, ghost below: nat)
      requires Valid() && entry in entries
      modifies this`stack, this`db, entries
      ensures Valid()
      ensures r == match old(entry.state)
                   case Open => Send
                   case Released => Refused(old(entry.closedBy))
                   case RolledBack => if release then Noop else Refused(old(entry.closedBy))
      ensures r.Send? ==>
        && below < |old(stack)| && old(stack)[below] == entry && db.data == entry.atOpen
        && (var back := SqlRollbackTo(old(db), entry.name);
            back.Some? && if release then SqlRelease(back.value, entry.name) == Some(db) else db == back.value)
        && stack == old(stack)[..if release then below else below + 1]
        && (forall e | e in old(stack)[below + 1..] || (release && e == entry) ::
              e.state == RolledBack && e.closedBy == Some(Closure(ByRollback, entry.name)))
      ensures !r.Send? ==> below == |old(stack)| && stack == old(stack) && db == old(db)
      ensures below <= |old(stack)|
      ensures forall e | e in entries && e !in old(stack)[below..] :: e.state == old(e.state) && e.closedBy == old(e.closedBy)
    {
      below := |stack|;
      if entry.state == RolledBack {
        if release { return Noop, below; }
        return Refused(entry.closedBy), below;
      }
      if entry.state == Released { return Refused(entry.closedBy), below; }
      var index := IndexOf(entry);
      below := index;
      BackTo(index, entry);
      if release { CloseTop(index, entry); }
      r := Send;
    }

    /** `ROLLBACK TO` the entry at `index`: it stays open, with the data it was opened on. */
    method BackTo(index: nat, entry: SavepointEntry<D>)
      requires Valid() && index < |stack| && stack[index] == entry
      modifies this`stack, this`db, entries
      ensures Valid() && stack == old(stack)[..index + 1] && db.data == entry.atOpen
      ensures SqlRollbackTo(old(db), entry.name) == Some(db)
      ensures forall e | e in old(stack)[index + 1..] :: e.state == RolledBack && e.closedBy == Some(Closure(ByRollback, entry.name))
      ensures forall e | e in entries && e !in old(stack)[index + 1..] :: e.state == old(e.state) && e.closedBy == old(e.closedBy)
    {
      NameAddresses(db.stack, index);
      Close(index + 1, RolledBack, Closure(ByRollback, entry.name), entry.atOpen);
    }

    /** `RELEASE` of the entry on top, rolled back just before. */
    method CloseTop(index: nat, entry: SavepointEntry<D>)
      requires Valid() && |stack| == index + 1 && stack[index] == entry
      modifies this`stack, this`db, entries
      ensures Valid() && stack == old(stack)[..index] && db.data == old(db.data)
      ensures SqlRelease(old(db), entry.name) == Some(db)
      ensures entry.state == RolledBack && entry.closedBy == Some(Closure(ByRollback, entry.name))
      ensures forall e | e in entries && e != entry :: e.state == old(e.state) && e.closedBy == old(e.closedBy)
    {
      NameAddresses(db.stack, index);
      assert stack[index..] == [entry];
      Close(index, RolledBack, Closure(ByRollback, entry.name), db.data);
    }
  }
}
