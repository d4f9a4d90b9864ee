/** The restart policy of one pool: facts are reported, decisions come back. */
module Supervisor {
  import opened Basics

  datatype Slot = Slot(everReady: bool, alive: bool, lost: bool, restarts: nat)

  datatype Report = Spawned | Ready | Served | Died | Lost | Retired

  datatype Decision = NoDecision | Restart | SlotLost | FailClient

  function FreshSlot(): Slot { Slot(false, true, false, 0) }

  function LiveCount(slots: seq<Slot>): nat
  {
    if slots == [] then 0 else (if slots[0].alive then 1 else 0) + LiveCount(slots[1..])
  }

  lemma {:induction false} NoneLive(slots: seq<Slot>)
    ensures LiveCount(slots) == 0 <==> forall i | 0 <= i < |slots| :: !slots[i].alive
  {
    if slots != [] {
      NoneLive(slots[1..]);
      assert forall i | 0 < i < |slots| :: slots[i] == slots[1..][i - 1];
    }
  }

  /** A loss takes the slot out of the count for good, once. */
  function Lose(slots: seq<Slot>, i: nat): (r: (seq<Slot>, Decision))
    requires i < |slots|
    ensures |r.0| == |slots|
  {
    var after := slots[i := slots[i].(alive := false, lost := true)];
    (after, if LiveCount(after) == 0 then FailClient else SlotLost)
  }

  function Reported(slots: seq<Slot>, max: nat, i: nat, report: Report): (r: (seq<Slot>, Decision))
    ensures |r.0| == |slots|
  {
    if i >= |slots| then (slots, NoDecision)
    else
      var slot := slots[i];
      match report
      case Spawned => (if slot.lost then slots else slots[i := slot.(alive := true)], NoDecision)
      case Ready => (if slot.lost then slots else slots[i := slot.(everReady := true, alive := true)], NoDecision)
      case Served => (if slot.alive then slots[i := slot.(restarts := 0)] else slots, NoDecision)
      case Retired => (if slot.alive then slots[i := slot.(alive := false, lost := true)] else slots, NoDecision)
      case Lost => if slot.alive then Lose(slots, i) else (slots, NoDecision)
      case Died =>
        if !slot.alive then (slots, NoDecision)
        else if slot.everReady && slot.restarts < max
        then (slots[i := slot.(alive := false, restarts := slot.restarts + 1)], Restart)
        else Lose(slots, i)
  }

  /**
    * What a report leads to. A slot that was ready and has budget left is restarted
    * when it dies, and charged; any other that dies is lost, and the client fails
    * with the last one. A slot counted out says nothing more, and one lost for good
    * stays lost.
    */
  lemma ReportOutcome(slots: seq<Slot>, max: nat, i: nat, report: Report)
    requires i < |slots|
    ensures var (after, decision), slot := Reported(slots, max, i, report), slots[i];
            && |after| == |slots| && (forall k | 0 <= k < |slots| && k != i :: after[k] == slots[k])
            && (report == Died && slot.alive && slot.everReady && slot.restarts < max ==>
                  decision == Restart && after[i] == Slot(true, false, slot.lost, slot.restarts + 1))
            && ((report == Died && slot.alive && !(slot.everReady && slot.restarts < max)) || (report == Lost && slot.alive) ==>
                  && after[i] == Slot(slot.everReady, false, true, slot.restarts)
                  && (if exists k :: 0 <= k < |slots| && k != i && slots[k].alive then decision == SlotLost else decision == FailClient))
            && (report == Retired && slot.alive ==> decision == NoDecision && after[i] == Slot(slot.everReady, false, true, slot.restarts))
            && (report == Served && slot.alive ==> decision == NoDecision && after[i] == Slot(slot.everReady, true, slot.lost, 0))
            && (report == Spawned && !slot.lost ==> decision == NoDecision && after[i] == Slot(slot.everReady, true, false, slot.restarts))
            && (report == Ready && !slot.lost ==> decision == NoDecision && after[i] == Slot(true, true, false, slot.restarts))
            && ((report == Spawned || report == Ready) && slot.lost ==> decision == NoDecision && after == slots)
            && (report != Spawned && report != Ready && !slot.alive ==> decision == NoDecision && after == slots)
  {
    NoneLive(slots[i := slots[i].(alive := false, lost := true)]);
  }

  predicate WithinBudget(slots: seq<Slot>, max: nat)
  {
    forall i | 0 <= i < |slots| :: slots[i].restarts <= max && (slots[i].lost ==> !slots[i].alive)
  }

  class RestartPolicy {
    const max: nat
    var slots: seq<Slot>

    constructor (size: nat, max: nat)
      ensures slots == seq(size, _ => FreshSlot()) && this.max == max && WithinBudget(slots, max)
    {
      this.max := max;
      slots := seq(size, _ => FreshSlot());
    }

    method CountLive() returns (n: nat)
      ensures n == LiveCount(slots)
    {
      n := 0;
      for i := 0 to |slots|
        invariant n + LiveCount(slots[i..]) == LiveCount(slots)
      {
        assert slots[i..][1..] == slots[i + 1..];
        if slots[i].alive { n := n + 1; }
      }
    }

    method Report(i: nat, report: Report) returns (decision: Decision)
      requires WithinBudget(slots, max)
      modifies this`slots
      ensures (slots, decision) == Reported(old(slots), max, i, report) && WithinBudget(slots, max)
    {
      if i >= |slots| { return NoDecision; }
      var slot := slots[i];
      if report == Spawned || report == Ready {
        if slot.lost { return NoDecision; }
        slots := slots[i := slot.(everReady := slot.everReady || report == Ready, alive := true)];
        return NoDecision;
      }
      if !slot.alive { return NoDecision; }
      if report == Served {
        slots := slots[i := slot.(restarts := 0)];
        return NoDecision;
      }
      if report == Died && slot.everReady && slot.restarts < max {
        slots := slots[i := slot.(alive := false, restarts := slot.restarts + 1)];
        return Restart;
      }
      slots := slots[i := slot.(alive := false, lost := true)];
      if report == Retired { return NoDecision; }
      var n := CountLive();
      decision := if n == 0 then FailClient else SlotLost;
    }
  }
}
