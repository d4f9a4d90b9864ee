/** The transport's two ends as they run, each method a step of the machine. */
module Transport {
  import opened Basics
  import opened TransportModel

  datatype Taken = Go | Stopped

  /** The worker's gate: chunks are produced against credits. */
  class CreditGate {
    var currentCallId: nat
    var credits: nat
    var stopped: bool

    ghost function View(): Gate
      reads this
    {
      Gate(currentCallId, credits, stopped)
    }

    constructor ()
      ensures View() == Gate(0, 0, false)
    {
      currentCallId, credits, stopped := 0, 0, false;
    }

    method Reset(callId: nat, window: nat)
      modifies this
      ensures View() == Gate(callId, window, false)
    {
      currentCallId, credits, stopped := callId, window, false;
    }

    /** A credit for an earlier call is ignored. */
    method Grant(callId: nat)
      modifies this`credits
      ensures View() == GateGrant(old(View()), callId)
    {
      if callId != currentCallId { return; }
      credits := credits + 1;
    }

    method Stop()
      modifies this`stopped
      ensures View() == old(View()).(stopped := true)
    {
      stopped := true;
    }

    /**
      * Spends one credit, waiting for one first: the wait ends with a credit for
      * this call or with a stop. `wakes` are the messages that arrive during the
      * wait, of which it sees the first `seen`; None is still waiting.
      */
    method Take(callId: nat, wakes: seq<ToWorker>) returns (r: Option<Taken>, seen: nat)
      requires forall i | 0 <= i < |wakes| :: !wakes[i].Query?
      modifies this
      ensures seen <= |wakes|
      ensures callId != old(currentCallId) ==> r == Some(Stopped) && seen == 0 && View() == old(View())
      ensures callId == old(currentCallId) ==>
                match r
                case Some(Go) => !stopped && credits + 1 == old(credits) + Granted(wakes[..seen], callId)
                case Some(Stopped) => stopped
                case None => !stopped && seen == |wakes| && old(credits) + Granted(wakes, callId) == 0
      ensures old(credits) > 0 || old(stopped) ==> seen == 0
    {
      seen := 0;
      if callId != currentCallId { return Some(Stopped), seen; }
      while credits == 0 && !stopped && seen < |wakes|
        invariant 0 <= seen <= |wakes|
        invariant currentCallId == callId && credits == old(credits) + Granted(wakes[..seen], callId)
        invariant old(credits) > 0 || old(stopped) ==> seen == 0
        invariant old(stopped) ==> stopped
      {
        assert wakes[..seen + 1][..seen] == wakes[..seen];
        match wakes[seen] {
          case Credit(call) => Grant(call);
          case Stop(_) => Stop();
          case Query(_, _, _) =>
        }
        seen := seen + 1;
      }
      assert seen == |wakes| ==> wakes[..seen] == wakes;
      if stopped { return Some(Stopped), seen; }
      if credits == 0 { return None, seen; }
      credits := credits - 1;
      r := Some(Go);
    }
  }

  /** How many of the messages are credits for this call. */
  function Granted(wakes: seq<ToWorker>, callId: nat): nat
  {
    if wakes == [] then 0
    else Granted(wakes[..|wakes| - 1], callId) + if wakes[|wakes| - 1] == Credit(callId) then 1 else 0
  }

  /** The client's side of one worker: the message handler and the delivery loop share these fields. */
  class ClientTransport {
    var currentCallId: nat
    var inflight: bool
    var rejected: bool
    var stopped: bool
    var failed: bool
    var phase: Phase
    var inbox: seq<Item>
    var outcome: Outcome

    ghost function View(): Client
      reads this
    {
      Client(currentCallId, inflight, rejected, stopped, failed, phase, inbox, outcome)
    }

    /** The reuse guard, then the claim: whatever the inbox still holds is dropped. */
    method Post() returns (posted: bool)
      modifies this
      ensures posted == !old(inflight)
      ensures View() == if posted then Posted(old(View())) else old(View())
    {
      if inflight { return false; }
      inbox, stopped, failed := [], false, false;
      inflight, rejected := true, false;
      currentCallId := currentCallId + 1;
      phase, outcome := Looping, Cut;
      posted := true;
    }

    method OnMessage(m: ToClient)
      modifies this`inbox, this`inflight, this`rejected
      ensures View() == ClientReceive(old(View()), m)
    {
      if !inflight || m.call != currentCallId { return; }
      match m {
        case Chunk(_, rows) => inbox := inbox + [Rows(rows)];
        case Done(_) => inbox, inflight := inbox + [Count], false;
        case Error(_) => rejected := true;
      }
    }

    method OnMessageError()
      modifies this`failed
      ensures View() == old(View()).(failed := true)
    {
      failed := true;
    }

    /** The generator's `finally`. */
    method Finally(why: Outcome) returns (stop: Option<ToWorker>)
      modifies this
      ensures View() == Unwind(old(View()), why)
      ensures stop == if old(inflight) then Some(Stop(currentCallId)) else None
    {
      outcome := why;
      if inflight {
        phase := Draining;
        return Some(Stop(currentCallId));
      }
      Release();
      stop := None;
    }

    method Release()
      modifies this`phase, this`inflight, this`rejected, this`inbox
      ensures View() == Rest(old(View()))
    {
      inflight, rejected := false, false;
      inbox := [];
      phase := Idle;
    }

    /** One turn of the delivery loop: a value for the consumer, or the way out. */
    method Turn() returns (stop: Option<ToWorker>)
      requires Awake(View())
      modifies this
      ensures View() == LoopTurn(old(View()))
      ensures stop == if View().phase == Draining then Some(Stop(currentCallId)) else None
    {
      if inbox == [] {
        var why := if !inflight then Completed else if rejected then QueryFailed else if stopped then Cut else Broken;
        stop := Finally(why);
        return;
      }
      if stopped || failed {
        stop := Finally(if stopped then Cut else Broken);
        return;
      }
      phase, inbox := Yielded(inbox[0]), inbox[1..];
      stop := None;
    }
  }
}
