/**
  * Rows out of a generator of chunks. `next()`, `return()` and `throw()` may be
  * called while earlier calls are pending; a buffered row is handed out without
  * going through the queue. Calls are answered one at a time, in the order they
  * were made, all the same.
  */
module Flatten {
  import opened Basics

  type Row = nat

  datatype Kind = Next | Return | Throw

  datatype Answer = Value(row: Row) | Finished | Thrown

  /** A call's promise: it waits for an earlier call's, runs, or delivers a buffered row one turn later. */
  datatype Stage = Waiting(on: nat) | Running | Delivering(row: Row)

  datatype Call = Call(kind: Kind, stage: Stage)

  datatype Status = Idle | Open | Done

  /** The rows among the answers, in the order the calls were made. */
  function Delivered(answers: seq<Answer>): seq<Row>
  {
    if answers == [] then []
    else
      var last := answers[|answers| - 1];
      Delivered(answers[..|answers| - 1]) + if last.Value? then [last.row] else []
  }

  lemma {:induction false} DeliveredMore(answers: seq<Answer>, answer: Answer)
    ensures Delivered(answers + [answer]) == Delivered(answers) + if answer.Value? then [answer.row] else []
  {
    assert (answers + [answer])[..|answers|] == answers;
  }

  lemma {:induction false} OneMore(done: seq<Row>, row: Row, rest: seq<Row>)
    ensures done + ([row] + rest) == done + [row] + rest && IsPrefix(done + [row], done + [row] + rest)
  {
  }

  lemma {:induction false} NoMore(done: seq<Row>, hand: seq<Row>, rest: seq<Row>)
    requires hand == [] && rest == []
    ensures done + (hand + rest) == done
  {
  }

  /**
    * Of the calls not answered, made after the first `answered`, only the oldest is
    * served, and each other waits for the one made just before it.
    */
  predicate InLine(answered: nat, queue: seq<Call>)
  {
    && (forall i | 0 <= i < |queue| :: queue[i].stage.Waiting? ==> queue[i].stage.on + 1 == answered + i)
    && (forall i | 0 < i < |queue| :: queue[i].stage.Waiting?)
    && (forall i | 0 <= i < |queue| && queue[i].stage.Delivering? :: queue[i].kind == Next)
  }

  /** The row a delivery has taken out of the buffer. */
  function Hand(queue: seq<Call>): seq<Row>
  {
    if queue != [] && queue[0].stage.Delivering? then [queue[0].stage.row] else []
  }

  /**
    * `answers` are those given, one for each of the first calls, and `queue` the
    * calls after them. `chunks` is what the source has left, `all` every row it
    * ever had; `made` counts the calls, and `last` is the newest that went through
    * the queue; `cut` that a return, a throw, an abort or a failure ended it.
    */
  class Flattened {
    var rows: seq<Row>
    var index: nat
    var status: Status
    var pending: nat
    var made: nat
    var last: nat
    var delivering: bool
    var queue: seq<Call>
    var chunks: seq<seq<Row>>
    ghost var answers: seq<Answer>
    ghost var all: seq<Row>
    ghost var cut: bool

    ghost predicate QueueOk()
      reads this`answers, this`queue, this`pending, this`made, this`last, this`delivering
    {
      && pending == |queue| && made == |answers| + |queue| && InLine(|answers|, queue)
      && (delivering <==> queue != [] && queue[|queue| - 1].stage.Delivering?)
      && (queue != [] && !delivering ==> last + 1 == made)
    }

    /** The rows not handed out yet: the buffer's, then the source's. */
    ghost function Rest(): seq<Row>
      requires index <= |rows|
      reads this`rows, this`index, this`chunks
    {
      rows[index..] + Chained(chunks)
    }

    /** Until it is cut, every row is delivered, in hand, or still to come, in order. */
    ghost predicate RowsOk()
      reads this`rows, this`index, this`chunks, this`status, this`queue, this`answers, this`all, this`cut
    {
      && index <= |rows|
      && IsPrefix(Delivered(answers), all)
      && (!cut ==> all == Delivered(answers) + (Hand(queue) + Rest()))
      && (cut ==> status == Done)
      && (status == Done ==> rows == [] && (cut || chunks == []) && Hand(queue) == [])
    }

    ghost predicate Valid()
      reads this
    {
      QueueOk() && RowsOk()
    }

    constructor (chunks: seq<seq<Row>>)
      ensures Valid() && answers == [] && queue == [] && all == Chained(chunks) && !cut
    {
      rows, index, status := [], 0, Idle;
      pending, made, last, delivering, queue := 0, 0, 0, false, [];
      this.chunks := chunks;
      answers, all, cut := [], Chained(chunks), false;
    }

    /** Behind the newest call: its promise, or the gate of the delivery it is. */
    method Enqueue(kind: Kind)
      requires Valid()
      modifies this`queue, this`pending, this`made, this`last, this`delivering
      ensures Valid() && made == old(made) + 1
      ensures queue == old(queue) + [Call(kind, if old(queue) == [] then Running else Waiting(old(made) - 1))]
    {
      var idle := pending == 0;
      var before := if delivering then made - 1 else last;
      delivering := false;
      queue := queue + [Call(kind, if idle then Running else Waiting(before))];
      pending, last, made := pending + 1, made, made + 1;
    }

    /** A `next()`: a buffered row goes ahead of the queue only when nothing is pending. */
    method NextCall(signal: bool)
      requires Valid()
      modifies this`queue, this`pending, this`made, this`last, this`delivering, this`index, this`answers
      ensures Valid() && made == old(made) + 1
      ensures old(queue) != [] ==> answers == old(answers) && |queue| == |old(queue)| + 1
    {
      if pending > 0 || index >= |rows| {
        Enqueue(Next);
      } else if signal {
        TakeForDelivery();
      } else {
        HandOut();
      }
    }

    /** Without a signal nothing can abort it: the row is handed out now. */
    method HandOut()
      requires Valid() && queue == [] && index < |rows|
      modifies this`made, this`index, this`answers
      ensures Valid() && made == old(made) + 1 && answers == old(answers) + [Value(old(rows[index]))]
    {
      var row := Advance();
      assert all == Delivered(answers) + ([row] + Rest());
      OneMore(Delivered(answers), row, Rest());
      DeliveredMore(answers, Value(row));
      answers, made := answers + [Value(row)], made + 1;
    }

    /** The next row out of the buffer. */
    method Advance() returns (row: Row)
      requires index < |rows|
      modifies this`index
      ensures row == rows[old(index)] && index == old(index) + 1 && old(Rest()) == [row] + Rest()
    {
      row := rows[index];
      assert rows[index..] == [row] + rows[index + 1..];
      index := index + 1;
    }

    /** With one, the row is taken now and delivered one turn later. */
    method TakeForDelivery()
      requires Valid() && queue == [] && index < |rows|
      modifies this`queue, this`pending, this`made, this`delivering, this`index
      ensures Valid() && made == old(made) + 1 && queue == [Call(Next, Delivering(old(rows[index])))]
    {
      var row := Advance();
      queue, made := [Call(Next, Delivering(row))], made + 1;
      pending, delivering := pending + 1, true;
    }

    /** A call settles: it can only be the oldest, the others wait. */
    method Settle(answer: Answer)
      requires QueueOk() && queue != [] && !queue[0].stage.Waiting?
      modifies this`queue, this`pending, this`delivering, this`answers
      ensures QueueOk() && queue == old(queue)[1..] && answers == old(answers) + [answer]
      ensures Delivered(answers) == old(Delivered(answers)) + if answer.Value? then [answer.row] else []
      ensures Hand(queue) == []
    {
      DeliveredMore(answers, answer);
      if delivering && pending == 1 { delivering := false; }
      queue, pending := queue[1..], pending - 1;
      answers := answers + [answer];
    }

    /** The call the oldest one waited for has settled: it runs. */
    method Start()
      requires Valid() && queue != [] && queue[0].stage.Waiting?
      modifies this`queue
      ensures Valid() && queue == [Call(old(queue)[0].kind, Running)] + old(queue)[1..]
      ensures old(queue)[0].stage.on < |answers|
    {
      queue := [Call(queue[0].kind, Running)] + queue[1..];
    }

    /** Ended by a return, a throw, an abort or a failing source: what is buffered is dropped, and the call answered. */
    method Cut(answer: Answer)
      requires Valid() && queue != [] && !queue[0].stage.Waiting? && !answer.Value?
      modifies this`queue, this`pending, this`delivering, this`answers, this`status, this`rows, this`index, this`cut
      ensures Valid() && queue == old(queue)[1..] && answers == old(answers) + [answer] && cut
    {
      cut := true;
      status, rows, index := Done, [], 0;
      Settle(answer);
    }

    /** A buffered row's turn: the abort that came meanwhile wins, and the row is not delivered. */
    method Deliver(aborted: bool)
      requires Valid() && queue != [] && queue[0].stage.Delivering?
      modifies this`queue, this`pending, this`delivering, this`answers, this`status, this`rows, this`index, this`cut
      ensures Valid() && queue == old(queue)[1..] && cut == (old(cut) || aborted)
      ensures aborted ==> answers == old(answers) + [Thrown]
      ensures !aborted ==> answers == old(answers) + [Value(old(queue)[0].stage.row)]
    {
      if aborted { Cut(Thrown); } else { DeliverRow(); }
    }

    method DeliverRow()
      requires Valid() && queue != [] && queue[0].stage.Delivering?
      modifies this`queue, this`pending, this`delivering, this`answers
      ensures Valid() && queue == old(queue)[1..] && answers == old(answers) + [Value(old(queue)[0].stage.row)]
    {
      var row := queue[0].stage.row;
      ghost var rest := Rest();
      assert !cut && all == Delivered(answers) + ([row] + rest);
      OneMore(Delivered(answers), row, rest);
      Settle(Value(row));
    }

    /** The next buffered row answers the call. */
    method TakeRow()
      requires Valid() && status != Done && queue != [] && queue[0] == Call(Next, Running) && index < |rows|
      modifies this`queue, this`pending, this`delivering, this`answers, this`index
      ensures Valid() && queue == old(queue)[1..] && answers == old(answers) + [Value(old(rows[index]))]
    {
      var row := Advance();
      assert all == Delivered(answers) + ([row] + Rest());
      OneMore(Delivered(answers), row, Rest());
      Settle(Value(row));
    }

    /** The source has nothing more: the end, with every row delivered. */
    method Exhaust()
      requires Valid() && status != Done && queue != [] && queue[0] == Call(Next, Running) && index == |rows| && chunks == []
      modifies this`queue, this`pending, this`delivering, this`answers, this`status, this`rows, this`index
      ensures Valid() && queue == old(queue)[1..] && answers == old(answers) + [Finished]
      ensures status == Done && !cut && Delivered(answers) == all
    {
      assert rows[index..] == [] && Rest() == [];
      assert Delivered(answers) + (Hand(queue) + Rest()) == all;
      NoMore(Delivered(answers), Hand(queue), Rest());
      status, rows, index := Done, [], 0;
      Settle(Finished);
    }

    /** The source's next chunk that has a row, in the buffer; or none left. */
    method Pull()
      requires Valid() && status != Done && queue != [] && queue[0] == Call(Next, Running) && index == |rows|
      modifies this`chunks, this`rows, this`index
      ensures Valid() && Rest() == old(Rest())
      ensures if Rest() == [] then index == |rows| && chunks == [] else index < |rows|
    {
      ghost var rest := Rest();
      while chunks != [] && chunks[0] == []
        invariant index == |rows| && Chained(chunks) == old(Chained(chunks)) == Rest() == rest
        decreases |chunks|
        modifies this`chunks
      {
        chunks := chunks[1..];
      }
      if chunks != [] { rows, index, chunks := chunks[0], 0, chunks[1..]; }
      assert Rest() == rest;
    }

    /** A `next()` that finds the buffer empty: the first row of the source's next chunk that has one, or the end. */
    method ServeFromSource()
      requires Valid() && status != Done && queue != [] && queue[0] == Call(Next, Running) && index == |rows|
      modifies this`queue, this`pending, this`delivering, this`answers, this`status, this`rows, this`index, this`chunks
      ensures Valid() && queue == old(queue)[1..] && !cut
      ensures old(Rest()) != [] ==> answers == old(answers) + [Value(old(Rest()[0]))]
      ensures old(Rest()) == [] ==> answers == old(answers) + [Finished] && Delivered(answers) == all && status == Done
    {
      ghost var rest := Rest();
      status := Open;
      Pull();
      assert Rest() == rest;
      if index < |rows| {
        assert rest[0] == rows[index];
        TakeRow();
      } else {
        Exhaust();
      }
    }

    /** A `next()` that is served: the next row, whatever chunk holds it; after the last, the end; unless its signal or its source ends it. */
    method ServeNext(aborted: bool, sourceFails: bool)
      requires Valid() && queue != [] && queue[0] == Call(Next, Running)
      modifies this`queue, this`pending, this`delivering, this`answers, this`status, this`rows, this`index, this`cut, this`chunks
      ensures Valid() && queue == old(queue)[1..]
      // ended: nothing more, whatever the signal or the source
      ensures old(status) == Done ==> answers == old(answers) + [Finished] && cut == old(cut) && status == Done
      // a row in the buffer: the abort, or the row, and the source is not asked
      ensures old(status) != Done && old(index) < old(|rows|) ==>
                if aborted then answers == old(answers) + [Thrown] && cut
                else answers == old(answers) + [Value(old(rows[index]))] && !cut
      // none: the source, which no signal is checked before
      ensures old(status) != Done && old(index) == old(|rows|) ==>
                if sourceFails then answers == old(answers) + [Thrown] && cut
                else if old(Rest()) != [] then answers == old(answers) + [Value(old(Rest()[0]))] && !cut
                else answers == old(answers) + [Finished] && status == Done && !cut && Delivered(answers) == all
      ensures !aborted && !sourceFails && old(status) != Done && old(Rest()) != [] ==>
                answers == old(answers) + [Value(old(Rest()[0]))]
      ensures !aborted && !sourceFails && old(status) != Done && old(Rest()) == [] ==>
                answers == old(answers) + [Finished] && Delivered(answers) == all
    {
      if status == Done {
        Settle(Finished);
      } else if index < |rows| {
        assert Rest()[0] == rows[index];
        if aborted { Cut(Thrown); } else { TakeRow(); }
      } else if sourceFails {
        Cut(Thrown);
      } else {
        ServeFromSource();
      }
    }

    /** `return()` and `throw()`, when they are served, end it. */
    method ServeEnd()
      requires Valid() && queue != [] && queue[0].stage == Running && queue[0].kind != Next
      modifies this`queue, this`pending, this`delivering, this`answers, this`status, this`rows, this`index, this`cut
      ensures Valid() && queue == old(queue)[1..] && cut
      ensures answers == old(answers) + [if old(queue)[0].kind == Throw then Thrown else Finished]
    {
      Cut(if queue[0].kind == Throw then Thrown else Finished);
    }
  }
}
