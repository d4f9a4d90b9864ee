/**
  * The epoch protocol told by its steps: which commits a reader is promised, by
  * when they landed and were answered for, and which leases pay a barrier.
  */
module EpochOutcomes {
  import opened Basics
  import opened EpochNames
  import opened EpochProtocol

  predicate NoBump(steps: seq<Step>) { forall k | 0 <= k < |steps| :: !steps[k].Bump? }

  predicate NoBumpOf(steps: seq<Step>, w: nat) { forall k | 0 <= k < |steps| :: steps[k].Bump? ==> steps[k].conn != w }

  // ------------------------------------------------------------ a commit, step by step

  /** Commit `i` landed in a write of `v` that has not bumped yet. */
  predicate Landed(s: State, i: nat, v: nat)
  {
    i < |s.commits| && s.commits[i] == Commit(v, None, false)
  }

  /** Its write bumped to `n`, and no other lease of `v` has begun. */
  predicate Stamping(s: State, i: nat, v: nat, n: nat)
  {
    && i < |s.commits| && s.commits[i] == Commit(v, Some(n), false) && v < |s.conns|
    && if PostBump(s.conns[v].phase) then s.conns[v].phase.next == n else s.conns[v].phase == Idle
  }

  lemma {:induction false} LandedStays(c: Config, s: State, steps: seq<Step>, i: nat, v: nat)
    requires CanRun(c, s, steps) && NoBumpOf(steps, v) && Landed(s, i, v) && v < |s.conns|
    ensures Landed(Run(c, s, steps), i, v) && v < |Run(c, s, steps).conns|
    decreases |steps|
  {
    if steps != [] {
      LandedStep(c, s, steps[0], i, v);
      LandedStays(c, Apply(c, s, steps[0]), steps[1..], i, v);
    }
  }

  lemma LandedStep(c: Config, s: State, step: Step, i: nat, v: nat)
    requires Shape(c, s) && Enabled(c, s, step) && (step.Bump? ==> step.conn != v) && Landed(s, i, v) && v < |s.conns|
    ensures Landed(Apply(c, s, step), i, v) && v < |Apply(c, s, step).conns|
  {
  }

  lemma {:induction false} StampingStays(c: Config, s: State, steps: seq<Step>, i: nat, v: nat, n: nat)
    requires CanRun(c, s, steps) && NoLeaseOf(steps, v) && Stamping(s, i, v, n)
    ensures Stamping(Run(c, s, steps), i, v, n)
    decreases |steps|
  {
    if steps != [] {
      StampingStep(c, s, steps[0], i, v, n);
      StampingStays(c, Apply(c, s, steps[0]), steps[1..], i, v, n);
    }
  }

  lemma StampingStep(c: Config, s: State, step: Step, i: nat, v: nat, n: nat)
    requires Shape(c, s) && Enabled(c, s, step) && (step.Lease? ==> step.conn != v) && Stamping(s, i, v, n)
    ensures Stamping(Apply(c, s, step), i, v, n)
  {
  }

  lemma {:induction false} ResolvedStays(c: Config, s: State, steps: seq<Step>, i: nat)
    requires CanRun(c, s, steps) && i in s.resolved
    ensures i in Run(c, s, steps).resolved
    decreases |steps|
  {
    if steps != [] { ResolvedStays(c, Apply(c, s, steps[0]), steps[1..], i); }
  }

  lemma CommitLands(c: Config, s: State, v: nat)
    requires Shape(c, s) && Enabled(c, s, CommitOne(v))
    ensures Landed(Apply(c, s, CommitOne(v)), |s.commits|, v) && v < |Apply(c, s, CommitOne(v)).conns|
  {
  }

  lemma BumpStamps(c: Config, s: State, i: nat, v: nat, settled: bool)
    requires Shape(c, s) && Enabled(c, s, Bump(v, settled)) && Landed(s, i, v)
    ensures var t := Apply(c, s, Bump(v, settled)); Stamping(t, i, v, t.conns[v].phase.next)
  {
  }

  lemma ResolveAnswers(c: Config, s: State, i: nat, v: nat, n: nat)
    requires Shape(c, s) && Enabled(c, s, Resolve(v)) && Stamping(s, i, v, n)
    ensures i in Apply(c, s, Resolve(v)).resolved
  {
  }

  lemma {:induction false} RunStep(c: Config, s: State, step: Step, rest: seq<Step>)
    requires CanRun(c, s, [step] + rest)
    ensures Shape(c, s) && Enabled(c, s, step) && CanRun(c, Apply(c, s, step), rest)
    ensures Run(c, s, [step] + rest) == Run(c, Apply(c, s, step), rest)
  {
    assert ([step] + rest)[1..] == rest;
  }

  /** A commit landed, its write bumped and resolved: from then on it is among the resolved. */
  lemma CommitIsResolved(
    c: Config, s: State, v: nat, toBump: seq<Step>, settled: bool, toResolve: seq<Step>, after: seq<Step>)
    requires CanRun(c, s, [CommitOne(v)] + (toBump + ([Bump(v, settled)] + (toResolve + ([Resolve(v)] + after)))))
    requires NoBumpOf(toBump, v) && NoLeaseOf(toResolve, v)
    ensures |s.commits| in
            Run(c, s, [CommitOne(v)] + (toBump + ([Bump(v, settled)] + (toResolve + ([Resolve(v)] + after))))).resolved
  {
    var i := |s.commits|;
    var r5 := [Resolve(v)] + after;
    var r4 := toResolve + r5;
    var r3 := [Bump(v, settled)] + r4;
    var r2 := toBump + r3;
    RunStep(c, s, CommitOne(v), r2);
    CommitLands(c, s, v);
    var s1 := Apply(c, s, CommitOne(v));
    RunsCompose(c, s1, toBump, r3);
    LandedStays(c, s1, toBump, i, v);
    var s2 := Run(c, s1, toBump);
    RunStep(c, s2, Bump(v, settled), r4);
    BumpStamps(c, s2, i, v, settled);
    var s3 := Apply(c, s2, Bump(v, settled));
    var n := s3.conns[v].phase.next;
    RunsCompose(c, s3, toResolve, r5);
    StampingStays(c, s3, toResolve, i, v, n);
    var s4 := Run(c, s3, toResolve);
    RunStep(c, s4, Resolve(v), after);
    ResolveAnswers(c, s4, i, v, n);
    ResolvedStays(c, Apply(c, s4, Resolve(v)), after, i);
  }

  /** What landed, was bumped for and was answered for, in the steps before a query was issued. */
  ghost predicate WroteBefore(c: Config, s: State, before: seq<Step>, i: nat)
  {
    exists start: seq<Step>, v: nat, toBump: seq<Step>, settled: bool, toResolve: seq<Step>, after: seq<Step> ::
      && before == start + ([CommitOne(v)] + (toBump + ([Bump(v, settled)] + (toResolve + ([Resolve(v)] + after)))))
      && CanRun(c, s, start) && i == |Run(c, s, start).commits|
      && NoBumpOf(toBump, v) && NoLeaseOf(toResolve, v)
  }

  /**
    * Read your own writes, told by the steps: a commit made by a write, which bumped
    * and then resolved, is seen by every query issued after that, in any realm and
    * on any connection.
    */
  lemma ReadYourOwnCommits(c: Config, s: State, before: seq<Step>, i: nat, w: nat, write: bool, after: seq<Step>)
    requires Init(c, s) && CanRun(c, s, before + ([Lease(w, write)] + after))
    requires NoLeaseOf(after, w) && WroteBefore(c, s, before, i)
    ensures var r := Run(c, s, before + ([Lease(w, write)] + after));
            w < |r.conns| && (r.conns[w].phase == Ready ==> i in r.conns[w].absorbed)
  {
    ReadYourOwnWrites(c, s, before, w, write, after);
    var start: seq<Step>, v: nat, toBump: seq<Step>, settled: bool, toResolve: seq<Step>, rest: seq<Step> :|
      && before == start + ([CommitOne(v)] + (toBump + ([Bump(v, settled)] + (toResolve + ([Resolve(v)] + rest)))))
      && CanRun(c, s, start) && i == |Run(c, s, start).commits|
      && NoBumpOf(toBump, v) && NoLeaseOf(toResolve, v);
    RunsCompose(c, s, start, [CommitOne(v)] + (toBump + ([Bump(v, settled)] + (toResolve + ([Resolve(v)] + rest)))));
    CommitIsResolved(c, Run(c, s, start), v, toBump, settled, toResolve, rest);
  }

  // ------------------------------------------------------------------ who pays a barrier

  /** A lease owes a barrier exactly when its connection has seen less than the realm's counter or the origin says. */
  lemma TargetOutcome(c: Config, s: State, w: nat)
    requires Inv(c, s) && Enabled(c, s, Target(w))
    ensures var t, cell, origin := Apply(c, s, Target(w)), s.cells[s.conns[w].realm], s.conns[w].phase.origin;
            var newest := if origin > cell then origin else cell;
            && t.conns[w].target == newest && t.cells == s.cells[s.conns[w].realm := newest]
            && (t.conns[w].phase == Ready <==> s.conns[w].seen >= newest)
            && (t.conns[w].phase == Behind <==> s.conns[w].seen < newest)
  {
  }

  /** A new connection is behind whatever has happened: the first lease on it pays a barrier. */
  lemma NewConnectionPays(c: Config, s: State, realm: nat, w: nat)
    requires Inv(c, s) && Enabled(c, s, Spawn(realm)) && w == |s.conns|
    ensures var t := Apply(c, s, Spawn(realm));
            && Inv(c, t) && |t.conns| == w + 1 && t.conns[w].phase == Idle && t.conns[w].seen < 0
            && forall u: State | Inv(c, u) && w < |u.conns| && u.conns[w].seen < 0 && Enabled(c, u, Target(w)) ::
                 Apply(c, u, Target(w)).conns[w].phase == Behind
  {
    StepKeeps(c, s, Spawn(realm));
    forall u: State | Inv(c, u) && w < |u.conns| && u.conns[w].seen < 0 && Enabled(c, u, Target(w))
      ensures Apply(c, u, Target(w)).conns[w].phase == Behind
    {
      TargetOutcome(c, u, w);
    }
  }

  /** The connection has seen the newest epoch there is, and owes no barrier. */
  predicate Current(s: State, w: nat)
  {
    w < |s.conns| && s.conns[w].seen == s.top && s.conns[w].phase != Behind && s.conns[w].phase != Reading
  }

  lemma CurrentStep(c: Config, s: State, step: Step, w: nat)
    requires Inv(c, s) && Enabled(c, s, step) && Current(s, w) && !step.Bump?
    ensures Current(Apply(c, s, step), w)
  {
    if step.Target? { assert ConnInv(c, s, step.conn); }
  }

  /** While nobody bumps it stays so, through any leases: none of them pays a barrier. */
  lemma {:induction false} CurrentStays(c: Config, s: State, steps: seq<Step>, w: nat)
    requires Inv(c, s) && CanRun(c, s, steps) && NoBump(steps) && Current(s, w)
    ensures Inv(c, Run(c, s, steps)) && Current(Run(c, s, steps), w)
    decreases |steps|
  {
    if steps != [] {
      assert !steps[0].Bump?;
      StepKeeps(c, s, steps[0]);
      CurrentStep(c, s, steps[0], w);
      CurrentStays(c, Apply(c, s, steps[0]), steps[1..], w);
    }
  }

  /** A write leaves its connection current if and only if it was current, with no bump in its realm meanwhile. */
  lemma WriterStaysCurrentIff(c: Config, s: State, w: nat, settled: bool)
    requires Inv(c, s) && Enabled(c, s, Bump(w, settled))
    ensures Current(Apply(c, s, Bump(w, settled)), w) <==> s.conns[w].seen == s.conns[w].target == s.cells[s.conns[w].realm]
  {
    assert ConnInv(c, s, w);
  }

  /**
    * So after a write by a current connection, with no bump elsewhere since, its next
    * lease runs its query without a barrier.
    */
  lemma NextLeaseOwesNoBarrier(c: Config, s: State, w: nat, settled: bool, steps: seq<Step>)
    requires Inv(c, s) && Enabled(c, s, Bump(w, settled))
    requires s.conns[w].seen == s.conns[w].target == s.cells[s.conns[w].realm]
    requires CanRun(c, Apply(c, s, Bump(w, settled)), steps) && NoBump(steps)
    requires Enabled(c, Run(c, Apply(c, s, Bump(w, settled)), steps), Target(w))
    ensures var t := Run(c, Apply(c, s, Bump(w, settled)), steps);
            Shape(c, t) && Apply(c, t, Target(w)).conns[w].phase == Ready
  {
    StepKeeps(c, s, Bump(w, settled));
    WriterStaysCurrentIff(c, s, w, settled);
    CurrentStays(c, Apply(c, s, Bump(w, settled)), steps, w);
    CurrentStep(c, Run(c, Apply(c, s, Bump(w, settled)), steps), Target(w), w);
  }

  /** A barrier that succeeds lets the query run, with everything committed before it started seen. */
  lemma BarrierCatchesUp(c: Config, s: State, w: nat)
    requires Inv(c, s) && Enabled(c, s, StartBarrier(w))
    ensures var t := Apply(c, s, StartBarrier(w));
            && Shape(c, t) && Enabled(c, t, EndBarrier(w))
            && var u := Apply(c, t, EndBarrier(w));
               && u.conns[w].phase == Ready && u.conns[w].seen == s.conns[w].target
               && forall i | 0 <= i < |s.commits| :: i in u.conns[w].absorbed
  {
  }

  /** A published write gives the origin's lock back. */
  lemma LockComesFree(c: Config, s: State, w: nat)
    requires Inv(c, s) && c.locks && s.lock == HeldBy(w) && w < |s.conns| && s.conns[w].phase.Published?
    ensures Enabled(c, s, Release(w))
    ensures var t := Apply(c, s, Release(w));
            && Shape(c, t) && Enabled(c, t, Unlock) && t.conns[w].phase == Idle && Apply(c, t, Unlock).lock == Free
  {
  }
}
