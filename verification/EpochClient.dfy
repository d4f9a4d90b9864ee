/** The realm's counter cell and a worker's own epochs, as the client updates them. */
module EpochClient {
  import opened Basics
  import opened EpochNames
  import opened EpochProtocol

  class EpochCell {
    var value: nat

    constructor ()
      ensures value == 0
    {
      value := 0;
    }

    method Bump() returns (next: nat)
      modifies this
      ensures next == value == old(value) + 1
    {
      value := value + 1;
      next := value;
    }

    /** Never lowers the cell. */
    method RaiseTo(n: nat)
      modifies this
      ensures value >= old(value) && value >= n && (value == old(value) || value == n)
    {
      if n > value { value := n; }
    }
  }

  class PoolWorker {
    var seen: int
    var epochTarget: nat

    constructor ()
      ensures seen == -1
    {
      seen, epochTarget := -1, 0;
    }

    /** The part of the barrier before its statement: whether that statement is owed. */
    method CaptureTarget(cell: EpochCell, origin: nat) returns (behind: bool)
      modifies this`epochTarget, cell
      ensures epochTarget == cell.value == if origin > old(cell.value) then origin else old(cell.value)
      ensures behind <==> seen < epochTarget
      ensures
        forall s: State, w: nat |
          && w < |s.conns| && s.conns[w].realm < |s.cells|
          && s.conns[w].phase == Asked(origin) && s.conns[w].seen == seen && s.cells[s.conns[w].realm] == old(cell.value)
          :: var t := DoTarget(s, w);
             && t.conns[w].target == epochTarget && t.cells[s.conns[w].realm] == cell.value
             && t.conns[w].phase == if behind then Behind else Ready
    {
      cell.RaiseTo(origin);
      epochTarget := cell.value;
      behind := seen < epochTarget;
    }

    /** The barrier's statement succeeded. */
    method CaughtUp()
      modifies this`seen
      ensures seen == epochTarget
    {
      seen := epochTarget;
    }

    /**
      * Records a commit. The worker is marked current exactly when it was, at
      * its target, and nobody else in the realm has bumped since.
      */
    method AfterWrite(cell: EpochCell) returns (next: nat)
      requires seen <= cell.value && epochTarget <= cell.value
      modifies this`seen, cell
      ensures next == cell.value == old(cell.value) + 1
      ensures seen == AdvanceSeen(old(seen), epochTarget, next)
      ensures seen == next <==> old(seen) == epochTarget == old(cell.value)
      ensures seen != next ==> seen == old(seen)
    {
      next := cell.Bump();
      seen := if seen == epochTarget && next == epochTarget + 1 then next else seen;
    }
  }
}
