/**
  * The commit-epoch protocol of one database: many realms, each with a counter
  * cell and one published marker, many connections, each with the epoch it has
  * `seen`, and an origin-wide write lock. A step is one uninterruptible piece of
  * the client's code, or one message round trip ending.
  *
  * With `locks` false the Web Locks API is missing: every lock operation is a
  * no-op and the database is shared within one realm only.
  */
module EpochProtocol {
  import opened Basics
  import opened EpochNames

  datatype Config = Config(locks: bool, vfs: string, file: string)

  /**
    * Where a connection's current lease stands. `Ready` is the only phase in
    * which the leased query runs.
    */
  datatype Phase =
    | Idle
    | Leased
    | Asked(origin: nat)
    | Behind
    | Reading
    | Ready
    | Bumped(next: nat, previous: Option<nat>, settled: bool)
    | Swapping(next: nat, previous: Option<nat>, settled: bool)
    | Published(next: nat, settled: bool)

  /**
    * `absorbed` and `owed` exist for the statements below only: the commits the
    * connection's cached pages reflect, and the commits of the writes that had
    * resolved when this lease's query was issued.
    */
  datatype Conn = Conn(
    realm: nat, write: bool, seen: int, target: nat, phase: Phase,
    absorbed: set<nat>, owed: set<nat>)

  /**
    * A commit that landed in the file: by which connection, under which epoch
    * once its write has bumped, and whether it landed after that bump.
    */
  datatype Commit = Commit(writer: nat, epoch: Option<nat>, late: bool)

  datatype Lock = Free | HeldBy(conn: nat) | Releasing

  datatype State = State(
    conns: seq<Conn>,
    cells: seq<nat>,
    markers: seq<Option<nat>>,
    held: seq<string>,
    lock: Lock,
    commits: seq<Commit>,
    top: nat,
    published: nat,
    resolved: set<nat>)

  datatype Step =
    | OpenRealm
    | Spawn(realm: nat)
    | Lease(conn: nat, write: bool)
    | Ask(conn: nat)
    | Target(conn: nat)
    | StartBarrier(conn: nat)
    | EndBarrier(conn: nat)
    | FailBarrier(conn: nat)
    | GiveUpWrite(conn: nat)
    | CommitOne(conn: nat)
    | Bump(conn: nat, settled: bool)
    | HoldMarker(conn: nat)
    | DropMarker(conn: nat)
    | Resolve(conn: nat)
    | LateCommit(conn: nat)
    | Release(conn: nat)
    | Unlock
    | ForeignHold(name: string)
    | ForeignDrop(name: string)

  /** Where a connection's `seen` lands after the write it just served. */
  function AdvanceSeen(seen: int, target: nat, next: nat): int
  {
    if seen == target && next == target + 1 then next else seen
  }

  function Marker(c: Config, n: nat): string { EpochLockName(c.vfs, c.file, n) }

  function Prefix(c: Config): string { EpochPrefix(c.vfs, c.file) }

  function Below(n: nat): (r: set<nat>)
    ensures forall i :: i in r <==> 0 <= i < n
  {
    if n == 0 then {} else Below(n - 1) + {n - 1}
  }

  predicate Shape(c: Config, s: State)
  {
    && NoColon(c.vfs)
    && |s.markers| == |s.cells|
    && (!c.locks ==> |s.cells| == 1)
    && forall w | 0 <= w < |s.conns| :: s.conns[w].realm < |s.cells|
  }

  function Conns(s: State, w: nat, conn: Conn): State
    requires w < |s.conns|
  {
    s.(conns := s.conns[w := conn])
  }

  /** Which steps the client's code can take in which state. */
  predicate Enabled(c: Config, s: State, step: Step)
  {
    match step
    case OpenRealm => c.locks
    case Spawn(realm) => realm < |s.cells|
    case Unlock =>
      || s.lock == Releasing
      || (s.lock.HeldBy? && s.lock.conn < |s.conns| && Complete(s.conns[s.lock.conn].phase))
    case ForeignHold(name) => c.locks && EpochIn(name, Prefix(c)) == None
    case ForeignDrop(name) => c.locks && EpochIn(name, Prefix(c)) == None
    case Lease(w, write) => w < |s.conns| && s.conns[w].phase == Idle && (c.locks && write ==> s.lock == Free)
    case Ask(w) => w < |s.conns| && s.conns[w].phase == Leased
    case Target(w) => w < |s.conns| && s.conns[w].phase.Asked?
    case StartBarrier(w) => w < |s.conns| && s.conns[w].phase == Behind
    case EndBarrier(w) => w < |s.conns| && s.conns[w].phase == Reading
    case FailBarrier(w) => w < |s.conns| && (s.conns[w].phase == Behind || s.conns[w].phase == Reading)
    case GiveUpWrite(w) =>
      w < |s.conns| && s.conns[w].write && PreBump(s.conns[w].phase) && s.conns[w].phase != Ready
    case CommitOne(w) => w < |s.conns| && s.conns[w].write && s.conns[w].phase == Ready
    case Bump(w, _) => w < |s.conns| && s.conns[w].write && s.conns[w].phase == Ready
    case HoldMarker(w) => w < |s.conns| && s.conns[w].phase.Bumped?
    case DropMarker(w) => w < |s.conns| && s.conns[w].phase.Swapping?
    case Resolve(w) => w < |s.conns| && Complete(s.conns[w].phase)
    case LateCommit(w) => w < |s.conns| && PostBump(s.conns[w].phase) && !s.conns[w].phase.settled
    case Release(w) =>
      w < |s.conns| && ((s.conns[w].phase == Ready && !s.conns[w].write) || s.conns[w].phase.Published?)
  }

  /** A lease in its read or write, before, and after, its epoch was produced. */
  predicate Caught(p: Phase) { p == Behind || p == Reading || p == Ready }

  predicate PreBump(p: Phase) { p == Leased || p.Asked? || Caught(p) }

  predicate PostBump(p: Phase) { p.Bumped? || p.Swapping? || p.Published? }

  predicate Complete(p: Phase) { p.Published? && p.settled }

  /** The origin lock once the lease of `w` gives up its claim on it, nothing published. */
  function LockWithout(lock: Lock, w: nat): Lock { if lock == HeldBy(w) then Free else lock }

  ghost function Apply(c: Config, s: State, step: Step): State
    requires Shape(c, s) && Enabled(c, s, step)
  {
    match step
    case OpenRealm => s.(cells := s.cells + [0], markers := s.markers + [None])
    case Spawn(realm) => s.(conns := s.conns + [NewConn(realm)])
    case Lease(w, write) => DoLease(c, s, w, write)
    case Ask(w) =>
      var origin := if c.locks then OriginMax(s.held, Prefix(c)) else 0;
      Conns(s, w, s.conns[w].(phase := Asked(origin)))
    case Target(w) => DoTarget(s, w)
    case StartBarrier(w) => Conns(s, w, s.conns[w].(phase := Reading, absorbed := Below(|s.commits|)))
    case EndBarrier(w) => Conns(s, w, s.conns[w].(phase := Ready, seen := s.conns[w].target))
    case FailBarrier(w) => Conns(s, w, s.conns[w].(phase := Idle)).(lock := LockWithout(s.lock, w))
    case GiveUpWrite(w) => Conns(s, w, s.conns[w].(write := false)).(lock := LockWithout(s.lock, w))
    case CommitOne(w) => Land(s, w, Commit(w, None, false))
    case Bump(w, settled) => DoBump(s, w, settled)
    case HoldMarker(w) => DoHold(c, s, w)
    case DropMarker(w) => DoDrop(c, s, w)
    case Resolve(w) => s.(resolved := s.resolved + OwnCommits(s, w, s.conns[w].phase.next))
    case LateCommit(w) => Land(s, w, Commit(w, Some(s.conns[w].phase.next), true))
    case Release(w) =>
      Conns(s, w, s.conns[w].(phase := Idle))
      .(lock := if s.conns[w].phase.Published? && s.lock == HeldBy(w) then Releasing else s.lock)
    case Unlock => s.(lock := Free)
    case ForeignHold(name) => s.(held := s.held + [name])
    case ForeignDrop(name) => s.(held := Without(s.held, name))
  }

  /** A new connection is always behind: the first lease on it pays a barrier. */
  function NewConn(realm: nat): Conn { Conn(realm, false, -1, 0, Idle, {}, {}) }

  function DoLease(c: Config, s: State, w: nat, write: bool): State
    requires w < |s.conns|
  {
    Conns(s, w, s.conns[w].(phase := Leased, write := write, owed := s.resolved))
    .(lock := if c.locks && write then HeldBy(w) else s.lock)
  }

  /** The target is captured before the barrier statement; the origin can only raise it. */
  function DoTarget(s: State, w: nat): State
    requires w < |s.conns| && s.conns[w].phase.Asked? && s.conns[w].realm < |s.cells|
  {
    var conn := s.conns[w];
    var cell := if conn.phase.origin > s.cells[conn.realm] then conn.phase.origin else s.cells[conn.realm];
    Conns(s, w, conn.(target := cell, phase := if conn.seen >= cell then Ready else Behind))
    .(cells := s.cells[conn.realm := cell])
  }

  function Land(s: State, w: nat, commit: Commit): State
    requires w < |s.conns|
  {
    Conns(s, w, s.conns[w].(absorbed := s.conns[w].absorbed + {|s.commits|}))
    .(commits := s.commits + [commit])
  }

  function Stamped(commit: Commit, w: nat, next: nat): Commit
  {
    if commit.writer == w && commit.epoch == None then commit.(epoch := Some(next)) else commit
  }

  function Stamp(commits: seq<Commit>, w: nat, next: nat): (r: seq<Commit>)
  {
    seq(|commits|, i requires 0 <= i < |commits| => Stamped(commits[i], w, next))
  }

  function DoBump(s: State, w: nat, settled: bool): State
    requires w < |s.conns| && s.conns[w].realm < |s.cells| == |s.markers|
  {
    var conn := s.conns[w];
    var next := s.cells[conn.realm] + 1;
    Conns(s, w, conn.(seen := AdvanceSeen(conn.seen, conn.target, next),
                      phase := Bumped(next, s.markers[conn.realm], settled)))
    .(cells := s.cells[conn.realm := next],
      commits := Stamp(s.commits, w, next),
      top := if next > s.top then next else s.top)
  }

  /** New before old: the marker of `next` is held while the previous one still is. */
  function DoHold(c: Config, s: State, w: nat): State
    requires w < |s.conns| && s.conns[w].phase.Bumped? && s.conns[w].realm < |s.markers|
  {
    var conn := s.conns[w];
    var Bumped(next, previous, settled) := conn.phase;
    if !c.locks then Conns(s, w, conn.(phase := Published(next, settled)))
    else
      Conns(s, w, conn.(phase := Swapping(next, previous, settled)))
      .(held := s.held + [Marker(c, next)],
        markers := s.markers[conn.realm := Some(next)],
        published := next)
  }

  function DoDrop(c: Config, s: State, w: nat): State
    requires w < |s.conns| && s.conns[w].phase.Swapping?
  {
    var conn := s.conns[w];
    var Swapping(next, previous, settled) := conn.phase;
    Conns(s, w, conn.(phase := Published(next, settled)))
    .(held := if previous.Some? then Without(s.held, Marker(c, previous.value)) else s.held)
  }

  function OwnCommits(s: State, w: nat, next: nat): set<nat>
  {
    set i | 0 <= i < |s.commits| && s.commits[i].writer == w && s.commits[i].epoch == Some(next) && !s.commits[i].late
  }

  // ---------------------------------------------------------------- invariant

  /** The epoch of commit `i` counts, and is at most `n`. */
  predicate Within(s: State, i: nat, n: int)
    requires i < |s.commits|
  {
    !s.commits[i].late && s.commits[i].epoch.Some? && s.commits[i].epoch.value <= n
  }

  /** The connection has absorbed every commit whose epoch is at most `n`. */
  ghost predicate Covers(s: State, w: nat, n: int)
    requires w < |s.conns|
  {
    forall i | 0 <= i < |s.commits| && Within(s, i, n) :: i in s.conns[w].absorbed
  }

  /** Every owed commit has an epoch, and it is at most `n`. */
  ghost predicate OwedWithin(s: State, w: nat, n: nat)
    requires w < |s.conns|
  {
    forall i | i in s.conns[w].owed :: i < |s.commits| && Within(s, i, n)
  }

  ghost predicate ConnInv(c: Config, s: State, w: nat)
    requires Shape(c, s) && w < |s.conns|
  {
    var conn := s.conns[w];
    var cell := s.cells[conn.realm];
    && conn.seen <= cell
    && conn.target <= cell
    && Covers(s, w, conn.seen)
    && (forall i | i in conn.absorbed :: i < |s.commits|)
    && (conn.phase == Reading ==> Covers(s, w, conn.target))
    && (conn.phase == Ready ==> conn.target <= conn.seen)
    // an epoch about to be produced is new to the whole origin
    && (conn.write && Caught(conn.phase) ==> cell == s.top)
    && (conn.phase.Asked? ==> conn.phase.origin <= s.top && (c.locks && conn.write ==> conn.phase.origin == s.top))
    // the lock
    && (c.locks && conn.write && (PreBump(conn.phase) || PostBump(conn.phase)) ==>
          s.lock == HeldBy(w) || Complete(conn.phase))
    && (PostBump(conn.phase) ==> conn.write && conn.phase.next <= s.top)
    // publication
    && (c.locks && conn.phase.Bumped? ==>
          && conn.phase.next == s.top && s.published < s.top
          && (conn.phase.previous.Some? ==> conn.phase.previous.value <= s.published))
    && (c.locks && conn.phase.Swapping? ==>
          && conn.phase.next <= s.published
          && (conn.phase.previous.Some? ==> conn.phase.previous.value < s.published))
    && (c.locks && conn.phase.Published? ==> conn.phase.next <= s.published)
    // what the lease owes
    && (conn.phase == Leased ==> OwedWithin(s, w, s.top) && conn.owed <= s.resolved)
    && (conn.phase.Asked? ==> OwedWithin(s, w, if conn.phase.origin > cell then conn.phase.origin else cell))
    && (Caught(conn.phase) ==> OwedWithin(s, w, conn.target))
  }

  ghost predicate CommitInv(c: Config, s: State, i: nat)
    requires i < |s.commits|
  {
    var commit := s.commits[i];
    && commit.writer < |s.conns|
    && (commit.epoch == None ==>
          && s.conns[commit.writer].write && s.conns[commit.writer].phase == Ready
          && i in s.conns[commit.writer].absorbed && !commit.late)
    && (commit.epoch.Some? ==> commit.epoch.value <= s.top)
  }

  ghost predicate OriginInv(c: Config, s: State)
    requires Shape(c, s)
  {
    && (forall r | 0 <= r < |s.cells| :: s.cells[r] <= s.top)
    && (!c.locks ==> s.cells[0] == s.top)
    && (c.locks ==>
          && OriginMax(s.held, Prefix(c)) == s.published
          && s.published <= s.top
          && (s.published == s.top || (s.lock.HeldBy? && s.lock.conn < |s.conns| && s.conns[s.lock.conn].phase.Bumped?))
          && (forall r | 0 <= r < |s.cells| :: s.markers[r].Some? ==> s.markers[r].value <= s.published))
    && (s.lock.HeldBy? ==> s.lock.conn < |s.conns|)
    && (c.locks && s.lock.HeldBy? ==>
          s.conns[s.lock.conn].write && (PreBump(s.conns[s.lock.conn].phase) || PostBump(s.conns[s.lock.conn].phase)))
    && (forall i | i in s.resolved ::
          i < |s.commits| && Within(s, i, if c.locks then s.published else s.top))
  }

  ghost predicate Inv(c: Config, s: State)
  {
    && Shape(c, s)
    && (forall w | 0 <= w < |s.conns| :: ConnInv(c, s, w))
    && (forall i | 0 <= i < |s.commits| :: CommitInv(c, s, i))
    && OriginInv(c, s)
  }

  // ------------------------------------------------------ every step keeps it

  lemma OpenRealmKeeps(c: Config, s: State)
    requires Inv(c, s) && Enabled(c, s, OpenRealm)
    ensures Inv(c, Apply(c, s, OpenRealm))
  {
    var t := Apply(c, s, OpenRealm);
    forall v | 0 <= v < |t.conns|
      ensures ConnInv(c, t, v)
    {
      assert ConnInv(c, s, v);
    }
    forall i | 0 <= i < |t.commits|
      ensures CommitInv(c, t, i)
    {
      assert CommitInv(c, s, i);
    }
  }

  lemma SpawnKeeps(c: Config, s: State, realm: nat)
    requires Inv(c, s) && Enabled(c, s, Spawn(realm))
    ensures Inv(c, Apply(c, s, Spawn(realm)))
  {
    var t := Apply(c, s, Spawn(realm));
    forall v | 0 <= v < |t.conns|
      ensures ConnInv(c, t, v)
    {
      assert v < |s.conns| ==> ConnInv(c, s, v);
    }
    forall i | 0 <= i < |t.commits|
      ensures CommitInv(c, t, i)
    {
      assert CommitInv(c, s, i);
    }
  }

  lemma LeaseKeepsConn(c: Config, s: State, w: nat, write: bool, v: nat)
    requires Inv(c, s) && Enabled(c, s, Lease(w, write)) && v < |s.conns|
    ensures ConnInv(c, Apply(c, s, Lease(w, write)), v)
  {
    assert ConnInv(c, s, w) && ConnInv(c, s, v);
  }

  lemma LeaseKeeps(c: Config, s: State, w: nat, write: bool)
    requires Inv(c, s) && Enabled(c, s, Lease(w, write))
    ensures Inv(c, Apply(c, s, Lease(w, write)))
  {
    var t := Apply(c, s, Lease(w, write));
    assert ConnInv(c, s, w);
    forall v | 0 <= v < |t.conns|
      ensures ConnInv(c, t, v)
    {
      LeaseKeepsConn(c, s, w, write, v);
    }
    forall i | 0 <= i < |t.commits|
      ensures CommitInv(c, t, i)
    {
      assert i < |s.commits| ==> CommitInv(c, s, i);
    }
  }

  lemma AskKeepsConn(c: Config, s: State, w: nat, v: nat)
    requires Inv(c, s) && Enabled(c, s, Ask(w)) && v < |s.conns|
    ensures ConnInv(c, Apply(c, s, Ask(w)), v)
  {
    assert ConnInv(c, s, w) && ConnInv(c, s, v);
  }

  lemma AskKeeps(c: Config, s: State, w: nat)
    requires Inv(c, s) && Enabled(c, s, Ask(w))
    ensures Inv(c, Apply(c, s, Ask(w)))
  {
    var t := Apply(c, s, Ask(w));
    assert ConnInv(c, s, w);
    forall v | 0 <= v < |t.conns|
      ensures ConnInv(c, t, v)
    {
      AskKeepsConn(c, s, w, v);
    }
    forall i | 0 <= i < |t.commits|
      ensures CommitInv(c, t, i)
    {
      assert i < |s.commits| ==> CommitInv(c, s, i);
    }
  }

  lemma TargetKeeps(c: Config, s: State, w: nat)
    requires Inv(c, s) && Enabled(c, s, Target(w))
    ensures Inv(c, Apply(c, s, Target(w)))
  {
    var t := Apply(c, s, Target(w));
    assert ConnInv(c, s, w);
    forall v | 0 <= v < |t.conns|
      ensures ConnInv(c, t, v)
    {
      assert ConnInv(c, s, v);
    }
    forall i | 0 <= i < |t.commits|
      ensures CommitInv(c, t, i)
    {
      assert i < |s.commits| ==> CommitInv(c, s, i);
    }
  }

  lemma StartBarrierKeeps(c: Config, s: State, w: nat)
    requires Inv(c, s) && Enabled(c, s, StartBarrier(w))
    ensures Inv(c, Apply(c, s, StartBarrier(w)))
  {
    var t := Apply(c, s, StartBarrier(w));
    assert ConnInv(c, s, w);
    forall v | 0 <= v < |t.conns|
      ensures ConnInv(c, t, v)
    {
      assert ConnInv(c, s, v);
    }
    forall i | 0 <= i < |t.commits|
      ensures CommitInv(c, t, i)
    {
      assert i < |s.commits| ==> CommitInv(c, s, i);
    }
  }

  lemma EndBarrierKeeps(c: Config, s: State, w: nat)
    requires Inv(c, s) && Enabled(c, s, EndBarrier(w))
    ensures Inv(c, Apply(c, s, EndBarrier(w)))
  {
    var t := Apply(c, s, EndBarrier(w));
    assert ConnInv(c, s, w);
    forall v | 0 <= v < |t.conns|
      ensures ConnInv(c, t, v)
    {
      assert ConnInv(c, s, v);
    }
    forall i | 0 <= i < |t.commits|
      ensures CommitInv(c, t, i)
    {
      assert i < |s.commits| ==> CommitInv(c, s, i);
    }
  }

  lemma FailBarrierKeeps(c: Config, s: State, w: nat)
    requires Inv(c, s) && Enabled(c, s, FailBarrier(w))
    ensures Inv(c, Apply(c, s, FailBarrier(w)))
  {
    var t := Apply(c, s, FailBarrier(w));
    assert ConnInv(c, s, w);
    forall v | 0 <= v < |t.conns|
      ensures ConnInv(c, t, v)
    {
      assert ConnInv(c, s, v);
    }
    forall i | 0 <= i < |t.commits|
      ensures CommitInv(c, t, i)
    {
      assert i < |s.commits| ==> CommitInv(c, s, i);
    }
  }

  lemma GiveUpWriteKeeps(c: Config, s: State, w: nat)
    requires Inv(c, s) && Enabled(c, s, GiveUpWrite(w))
    ensures Inv(c, Apply(c, s, GiveUpWrite(w)))
  {
    var t := Apply(c, s, GiveUpWrite(w));
    assert ConnInv(c, s, w);
    forall v | 0 <= v < |t.conns|
      ensures ConnInv(c, t, v)
    {
      assert ConnInv(c, s, v);
    }
    forall i | 0 <= i < |t.commits|
      ensures CommitInv(c, t, i)
    {
      assert i < |s.commits| ==> CommitInv(c, s, i);
    }
  }

  lemma CommitKeeps(c: Config, s: State, w: nat)
    requires Inv(c, s) && Enabled(c, s, CommitOne(w))
    ensures Inv(c, Apply(c, s, CommitOne(w)))
  {
    var t := Apply(c, s, CommitOne(w));
    assert ConnInv(c, s, w);
    forall v | 0 <= v < |t.conns|
      ensures ConnInv(c, t, v)
    {
      assert ConnInv(c, s, v);
    }
    forall i | 0 <= i < |t.commits|
      ensures CommitInv(c, t, i)
    {
      assert i < |s.commits| ==> CommitInv(c, s, i);
    }
  }

  lemma LateCommitKeeps(c: Config, s: State, w: nat)
    requires Inv(c, s) && Enabled(c, s, LateCommit(w))
    ensures Inv(c, Apply(c, s, LateCommit(w)))
  {
    var t := Apply(c, s, LateCommit(w));
    assert ConnInv(c, s, w);
    forall v | 0 <= v < |t.conns|
      ensures ConnInv(c, t, v)
    {
      assert ConnInv(c, s, v);
    }
    forall i | 0 <= i < |t.commits|
      ensures CommitInv(c, t, i)
    {
      assert i < |s.commits| ==> CommitInv(c, s, i);
    }
  }

  /** The new epoch is above everything anybody has seen, so only the writer's own commits get it. */
  lemma BumpCovers(c: Config, s: State, w: nat, settled: bool, v: nat)
    requires Inv(c, s) && Enabled(c, s, Bump(w, settled)) && v < |s.conns|
    ensures
      var t := Apply(c, s, Bump(w, settled));
      Covers(t, v, t.conns[v].seen) && (t.conns[v].phase == Reading ==> Covers(t, v, t.conns[v].target))
  {
    var t := Apply(c, s, Bump(w, settled));
    assert ConnInv(c, s, w) && ConnInv(c, s, v);
    forall i | 0 <= i < |t.commits| && Within(t, i, t.conns[v].seen)
      ensures i in t.conns[v].absorbed
    {
      assert CommitInv(c, s, i);
      assert s.commits[i].epoch.Some? ==> Within(s, i, s.conns[v].seen);
    }
    if s.conns[v].phase == Reading {
      forall i | 0 <= i < |t.commits| && Within(t, i, t.conns[v].target)
        ensures i in t.conns[v].absorbed
      {
        assert CommitInv(c, s, i);
        assert s.commits[i].epoch.Some? ==> Within(s, i, s.conns[v].target);
      }
    }
  }

  lemma BumpKeepsConn(c: Config, s: State, w: nat, settled: bool, v: nat)
    requires Inv(c, s) && Enabled(c, s, Bump(w, settled)) && v < |s.conns|
    ensures ConnInv(c, Apply(c, s, Bump(w, settled)), v)
  {
    assert ConnInv(c, s, w) && ConnInv(c, s, v);
    BumpCovers(c, s, w, settled, v);
  }

  lemma BumpKeeps(c: Config, s: State, w: nat, settled: bool)
    requires Inv(c, s) && Enabled(c, s, Bump(w, settled))
    ensures Inv(c, Apply(c, s, Bump(w, settled)))
  {
    var t := Apply(c, s, Bump(w, settled));
    assert ConnInv(c, s, w);
    forall v | 0 <= v < |t.conns|
      ensures ConnInv(c, t, v)
    {
      BumpKeepsConn(c, s, w, settled, v);
    }
    forall i | 0 <= i < |t.commits|
      ensures CommitInv(c, t, i)
    {
      assert i < |s.commits| ==> CommitInv(c, s, i);
    }
  }

  lemma HoldMarkerRaises(c: Config, s: State, w: nat)
    requires Inv(c, s) && Enabled(c, s, HoldMarker(w)) && c.locks
    ensures OriginMax(s.held + [Marker(c, s.conns[w].phase.next)], Prefix(c)) == s.conns[w].phase.next == s.top
  {
    var next := s.conns[w].phase.next;
    OnlyOwnMarkersAreRead(c.vfs, c.file, c.vfs, c.file, next);
    assert ConnInv(c, s, w);
    HoldingRaises(s.held, Prefix(c), Marker(c, next));
  }

  lemma HoldMarkerKeepsConn(c: Config, s: State, w: nat, v: nat)
    requires Inv(c, s) && Enabled(c, s, HoldMarker(w)) && v < |s.conns|
    ensures ConnInv(c, Apply(c, s, HoldMarker(w)), v)
  {
    assert ConnInv(c, s, w) && ConnInv(c, s, v);
  }

  lemma HoldMarkerKeeps(c: Config, s: State, w: nat)
    requires Inv(c, s) && Enabled(c, s, HoldMarker(w))
    ensures Inv(c, Apply(c, s, HoldMarker(w)))
  {
    var t := Apply(c, s, HoldMarker(w));
    assert ConnInv(c, s, w);
    if c.locks { HoldMarkerRaises(c, s, w); }
    forall v | 0 <= v < |t.conns|
      ensures ConnInv(c, t, v)
    {
      HoldMarkerKeepsConn(c, s, w, v);
    }
    forall i | 0 <= i < |t.commits|
      ensures CommitInv(c, t, i)
    {
      assert CommitInv(c, s, i);
    }
  }

  lemma DropMarkerKeepsOrigin(c: Config, s: State, w: nat)
    requires Inv(c, s) && Enabled(c, s, DropMarker(w)) && c.locks
    ensures var t := Apply(c, s, DropMarker(w)); OriginMax(t.held, Prefix(c)) == OriginMax(s.held, Prefix(c))
  {
    assert ConnInv(c, s, w);
    if s.conns[w].phase.previous.Some? {
      var m := s.conns[w].phase.previous.value;
      OnlyOwnMarkersAreRead(c.vfs, c.file, c.vfs, c.file, m);
      DroppingKeeps(s.held, Prefix(c), Marker(c, m));
    }
  }

  lemma DropMarkerKeepsConn(c: Config, s: State, w: nat, v: nat)
    requires Inv(c, s) && Enabled(c, s, DropMarker(w)) && v < |s.conns|
    ensures ConnInv(c, Apply(c, s, DropMarker(w)), v)
  {
    assert ConnInv(c, s, w) && ConnInv(c, s, v);
  }

  lemma DropMarkerKeeps(c: Config, s: State, w: nat)
    requires Inv(c, s) && Enabled(c, s, DropMarker(w))
    ensures Inv(c, Apply(c, s, DropMarker(w)))
  {
    if c.locks { DropMarkerKeepsOrigin(c, s, w); }
    var t := Apply(c, s, DropMarker(w));
    assert ConnInv(c, s, w);
    forall v | 0 <= v < |t.conns|
      ensures ConnInv(c, t, v)
    {
      DropMarkerKeepsConn(c, s, w, v);
    }
    forall i | 0 <= i < |t.commits|
      ensures CommitInv(c, t, i)
    {
      assert i < |s.commits| ==> CommitInv(c, s, i);
    }
  }

  lemma ResolveKeeps(c: Config, s: State, w: nat)
    requires Inv(c, s) && Enabled(c, s, Resolve(w))
    ensures Inv(c, Apply(c, s, Resolve(w)))
  {
    var t := Apply(c, s, Resolve(w));
    assert ConnInv(c, s, w);
    forall v | 0 <= v < |t.conns|
      ensures ConnInv(c, t, v)
    {
      assert ConnInv(c, s, v);
    }
    forall i | 0 <= i < |t.commits|
      ensures CommitInv(c, t, i)
    {
      assert i < |s.commits| ==> CommitInv(c, s, i);
    }
  }

  lemma ReleaseKeepsConn(c: Config, s: State, w: nat, v: nat)
    requires Inv(c, s) && Enabled(c, s, Release(w)) && v < |s.conns|
    ensures ConnInv(c, Apply(c, s, Release(w)), v)
  {
    assert ConnInv(c, s, w) && ConnInv(c, s, v);
  }

  lemma ReleaseKeeps(c: Config, s: State, w: nat)
    requires Inv(c, s) && Enabled(c, s, Release(w))
    ensures Inv(c, Apply(c, s, Release(w)))
  {
    var t := Apply(c, s, Release(w));
    forall v | 0 <= v < |t.conns|
      ensures ConnInv(c, t, v)
    {
      ReleaseKeepsConn(c, s, w, v);
    }
    forall i | 0 <= i < |t.commits|
      ensures CommitInv(c, t, i)
    {
      assert i < |s.commits| ==> CommitInv(c, s, i);
    }
  }

  lemma UnlockKeeps(c: Config, s: State)
    requires Inv(c, s) && Enabled(c, s, Unlock)
    ensures Inv(c, Apply(c, s, Unlock))
  {
    var t := Apply(c, s, Unlock);
    forall v | 0 <= v < |t.conns|
      ensures ConnInv(c, t, v)
    {
      assert ConnInv(c, s, v);
    }
    forall i | 0 <= i < |t.commits|
      ensures CommitInv(c, t, i)
    {
      assert i < |s.commits| ==> CommitInv(c, s, i);
    }
  }

  lemma ForeignHoldKeeps(c: Config, s: State, name: string)
    requires Inv(c, s) && Enabled(c, s, ForeignHold(name))
    ensures Inv(c, Apply(c, s, ForeignHold(name)))
  {
    HoldingRaises(s.held, Prefix(c), name);
    var t := Apply(c, s, ForeignHold(name));
    forall v | 0 <= v < |t.conns|
      ensures ConnInv(c, t, v)
    {
      assert ConnInv(c, s, v);
    }
    forall i | 0 <= i < |t.commits|
      ensures CommitInv(c, t, i)
    {
      assert i < |s.commits| ==> CommitInv(c, s, i);
    }
  }

  lemma ForeignDropKeeps(c: Config, s: State, name: string)
    requires Inv(c, s) && Enabled(c, s, ForeignDrop(name))
    ensures Inv(c, Apply(c, s, ForeignDrop(name)))
  {
    DroppingKeeps(s.held, Prefix(c), name);
    var t := Apply(c, s, ForeignDrop(name));
    forall v | 0 <= v < |t.conns|
      ensures ConnInv(c, t, v)
    {
      assert ConnInv(c, s, v);
    }
    forall i | 0 <= i < |t.commits|
      ensures CommitInv(c, t, i)
    {
      assert i < |s.commits| ==> CommitInv(c, s, i);
    }
  }

  lemma StepKeeps(c: Config, s: State, step: Step)
    requires Inv(c, s) && Enabled(c, s, step)
    ensures Inv(c, Apply(c, s, step))
  {
    match step
    case OpenRealm => OpenRealmKeeps(c, s);
    case Spawn(realm) => SpawnKeeps(c, s, realm);
    case Lease(w, write) => LeaseKeeps(c, s, w, write);
    case Ask(w) => AskKeeps(c, s, w);
    case Target(w) => TargetKeeps(c, s, w);
    case StartBarrier(w) => StartBarrierKeeps(c, s, w);
    case EndBarrier(w) => EndBarrierKeeps(c, s, w);
    case FailBarrier(w) => FailBarrierKeeps(c, s, w);
    case GiveUpWrite(w) => GiveUpWriteKeeps(c, s, w);
    case CommitOne(w) => CommitKeeps(c, s, w);
    case Bump(w, settled) => BumpKeeps(c, s, w, settled);
    case HoldMarker(w) => HoldMarkerKeeps(c, s, w);
    case DropMarker(w) => DropMarkerKeeps(c, s, w);
    case Resolve(w) => ResolveKeeps(c, s, w);
    case LateCommit(w) => LateCommitKeeps(c, s, w);
    case Release(w) => ReleaseKeeps(c, s, w);
    case Unlock => UnlockKeeps(c, s);
    case ForeignHold(name) => ForeignHoldKeeps(c, s, name);
    case ForeignDrop(name) => ForeignDropKeeps(c, s, name);
  }

  // -------------------------------------------------------------------- runs

  /** Before anything was committed: idle connections, no marker of this database held. */
  predicate Init(c: Config, s: State)
  {
    && Shape(c, s)
    && (forall r | 0 <= r < |s.cells| :: s.cells[r] == 0 && s.markers[r] == None)
    && (forall w | 0 <= w < |s.conns| :: s.conns[w] == NewConn(s.conns[w].realm))
    && (forall name | name in s.held :: EpochIn(name, Prefix(c)) == None)
    && s.lock == Free && s.commits == [] && s.top == 0 && s.published == 0 && s.resolved == {}
  }

  ghost predicate CanRun(c: Config, s: State, steps: seq<Step>)
    decreases |steps|
  {
    steps == [] || (Shape(c, s) && Enabled(c, s, steps[0]) && CanRun(c, Apply(c, s, steps[0]), steps[1..]))
  }

  ghost function Run(c: Config, s: State, steps: seq<Step>): State
    requires CanRun(c, s, steps)
    decreases |steps|
  {
    if steps == [] then s else Run(c, Apply(c, s, steps[0]), steps[1..])
  }

  lemma InitKeeps(c: Config, s: State)
    requires Init(c, s)
    ensures Inv(c, s)
  {
    OriginMaxIs(s.held, Prefix(c), 0);
  }

  lemma {:induction false} RunKeeps(c: Config, s: State, steps: seq<Step>)
    requires Inv(c, s) && CanRun(c, s, steps)
    ensures Inv(c, Run(c, s, steps))
    decreases |steps|
  {
    if steps != [] {
      StepKeeps(c, s, steps[0]);
      RunKeeps(c, Apply(c, s, steps[0]), steps[1..]);
    }
  }

  lemma {:induction false} RunsCompose(c: Config, s: State, a: seq<Step>, b: seq<Step>)
    requires CanRun(c, s, a + b)
    ensures CanRun(c, s, a) && CanRun(c, Run(c, s, a), b)
    ensures Run(c, s, a + b) == Run(c, Run(c, s, a), b)
    decreases |a|
  {
    if a == [] {
      assert a + b == b;
    } else {
      assert (a + b)[1..] == a[1..] + b;
      RunsCompose(c, Apply(c, s, a[0]), a[1..], b);
    }
  }

  /**
    * Epoch safety: in every reachable state, every connection has absorbed every
    * commit whose epoch is at most the connection's `seen`.
    */
  lemma EpochSafety(c: Config, s: State, steps: seq<Step>)
    requires Init(c, s) && CanRun(c, s, steps)
    ensures
      var r := Run(c, s, steps);
      forall w, i | 0 <= w < |r.conns| && 0 <= i < |r.commits| && Within(r, i, r.conns[w].seen) ::
        i in r.conns[w].absorbed
  {
    InitKeeps(c, s);
    RunKeeps(c, s, steps);
    var r := Run(c, s, steps);
    forall w | 0 <= w < |r.conns|
      ensures Covers(r, w, r.conns[w].seen)
    {
      assert ConnInv(c, r, w);
    }
  }

  /** The origin maximum never dips: a new marker is held before the old one is released. */
  lemma OriginNeverDips(c: Config, s: State, step: Step)
    requires c.locks && Inv(c, s) && Enabled(c, s, step)
    ensures OriginMax(Apply(c, s, step).held, Prefix(c)) >= OriginMax(s.held, Prefix(c))
  {
    StepKeeps(c, s, step);
    if step.HoldMarker? {
      assert ConnInv(c, s, step.conn);
    }
  }

  /** A write lease between its grant and its unlock, which comes no sooner than its write is published and settled. */
  predicate InTheLock(s: State, w: nat)
    requires w < |s.conns|
  {
    var conn := s.conns[w];
    conn.write && (PreBump(conn.phase) || PostBump(conn.phase)) && (!Complete(conn.phase) || s.lock == HeldBy(w))
  }

  /** At most one write lease of the origin is between its grant and its unlock, and the lock is its own. */
  lemma OneWriterInTheOrigin(c: Config, s: State, v: nat, w: nat)
    requires c.locks && Inv(c, s) && v < |s.conns| && w < |s.conns|
    requires InTheLock(s, v) && InTheLock(s, w)
    ensures v == w && s.lock == HeldBy(v)
  {
    assert ConnInv(c, s, v) && ConnInv(c, s, w);
  }

  predicate NoLeaseOf(steps: seq<Step>, w: nat)
  {
    forall k | 0 <= k < |steps| :: steps[k].Lease? ==> steps[k].conn != w
  }

  lemma {:induction false} OwedStays(c: Config, s: State, steps: seq<Step>, w: nat)
    requires CanRun(c, s, steps) && w < |s.conns|
    requires NoLeaseOf(steps, w)
    ensures w < |Run(c, s, steps).conns| && Run(c, s, steps).conns[w].owed == s.conns[w].owed
    decreases |steps|
  {
    if steps != [] {
      var t := Apply(c, s, steps[0]);
      assert w < |t.conns| && t.conns[w].owed == s.conns[w].owed;
      OwedStays(c, t, steps[1..], w);
    }
  }

  /**
    * Read your own writes, in whatever realm: a query leased after a write has
    * resolved runs on a connection that has absorbed that write's commits.
    */
  lemma ReadYourOwnWrites(c: Config, s: State, before: seq<Step>, w: nat, write: bool, after: seq<Step>)
    requires Init(c, s) && CanRun(c, s, before + ([Lease(w, write)] + after))
    requires NoLeaseOf(after, w)
    ensures CanRun(c, s, before)
    ensures
      var issued := Run(c, s, before);
      var r := Run(c, s, before + ([Lease(w, write)] + after));
      w < |r.conns| && (r.conns[w].phase == Ready ==> issued.resolved <= r.conns[w].absorbed)
  {
    var lease := [Lease(w, write)];
    RunsCompose(c, s, before, lease + after);
    var issued := Run(c, s, before);
    RunsCompose(c, issued, lease, after);
    var leased := Run(c, issued, lease);
    assert leased == Apply(c, issued, lease[0]);
    OwedStays(c, leased, after, w);
    InitKeeps(c, s);
    RunKeeps(c, s, before + (lease + after));
    var r := Run(c, s, before + (lease + after));
    assert ConnInv(c, r, w);
  }

  // ------------------------------------------- a commit that lands after its bump

  /** `Covers`, of commits that landed after their bump as well. */
  ghost predicate CoversLate(s: State, w: nat)
    requires w < |s.conns|
  {
    forall i | 0 <= i < |s.commits| && s.commits[i].epoch.Some? && s.commits[i].epoch.value <= s.conns[w].seen ::
      i in s.conns[w].absorbed
  }

  /**
    * An aborted write bumps before its worker is idle. When it commits after all,
    * every connection stays truthful exactly when no other one has reached that
    * epoch yet.
    */
  lemma LateCommitIsSafeIff(c: Config, s: State, w: nat)
    requires Inv(c, s) && Enabled(c, s, LateCommit(w))
    requires forall v | 0 <= v < |s.conns| :: CoversLate(s, v)
    ensures
      var t := Apply(c, s, LateCommit(w));
      (forall v | 0 <= v < |t.conns| :: CoversLate(t, v))
      <==> (forall v | 0 <= v < |s.conns| && v != w :: s.conns[v].seen < s.conns[w].phase.next)
  {
    var t := Apply(c, s, LateCommit(w));
    var late := |s.commits|;
    forall v | 0 <= v < |s.conns|
      ensures v != w ==> late !in t.conns[v].absorbed
    {
      assert ConnInv(c, s, v);
    }
    forall v | 0 <= v < |s.conns| && (v == w || s.conns[v].seen < s.conns[w].phase.next)
      ensures CoversLate(t, v)
    {
      assert CoversLate(s, v);
      assert forall i | 0 <= i < |s.commits| :: t.commits[i] == s.commits[i];
    }
    forall v | 0 <= v < |s.conns| && v != w && s.conns[v].seen >= s.conns[w].phase.next
      ensures !CoversLate(t, v)
    {
      assert t.commits[late] == Commit(w, Some(s.conns[w].phase.next), true);
    }
  }

  /** A run spelled out state by state. */
  datatype Path = Nil | Cons(step: Step, next: State, rest: Path)

  ghost predicate Valid(c: Config, s: State, path: Path)
    decreases path
  {
    path.Nil? ||
    (Shape(c, s) && Enabled(c, s, path.step) && Apply(c, s, path.step) == path.next && Valid(c, path.next, path.rest))
  }

  function Steps(path: Path): seq<Step>
  {
    if path.Nil? then [] else [path.step] + Steps(path.rest)
  }

  function End(s: State, path: Path): State
    decreases path
  {
    if path.Nil? then s else End(path.next, path.rest)
  }

  lemma {:induction false} PathRuns(c: Config, s: State, path: Path)
    requires Valid(c, s, path)
    ensures CanRun(c, s, Steps(path)) && Run(c, s, Steps(path)) == End(s, path)
    decreases path
  {
    if path.Cons? {
      PathRuns(c, path.next, path.rest);
      assert Steps(path)[1..] == Steps(path.rest);
    }
  }

  /** Two connections of one realm; epoch 1 is published by the last marker held, if any. */
  function Pair(c: Config, first: Conn, second: Conn, cell: nat, published: nat, held: seq<string>, commits: seq<Commit>): State
  {
    State([first, second], [cell], [if published == 0 then None else Some(published)], held, HeldBy(0), commits, cell, published, {})
  }

  function Writer(seen: int, phase: Phase): Conn { Conn(0, true, seen, 0, phase, {}, {}) }

  function Reader(seen: int, target: nat, phase: Phase): Conn { Conn(0, false, seen, target, phase, {}, {}) }

  function Fresh(): State { Pair(Config(true, "", ""), NewConn(0), NewConn(0), 0, 0, [], []).(lock := Free) }

  /** Connection 1 has caught up with epoch 1; the write connection 0 abandoned commits after all, or has not yet. */
  function CaughtUp(c: Config, phase: Phase, seen: int, target: nat): State
  {
    Pair(c, Writer(1, Swapping(1, None, false)), Reader(seen, target, phase), 1, 1, [Marker(c, 1)], [])
  }

  function Missed(c: Config): State
  {
    Pair(c, Writer(1, Swapping(1, None, false)).(absorbed := {0}), Reader(1, 1, Ready), 1, 1, [Marker(c, 1)],
         [Commit(0, Some(1), true)])
  }

  lemma LateCommitLands(c: Config)
    requires NoColon(c.vfs)
    ensures Valid(c, CaughtUp(c, Ready, 1, 1), Cons(LateCommit(0), Missed(c), Nil))
    ensures |Missed(c).conns| == 2 && !CoversLate(Missed(c), 1)
  {
    var s := CaughtUp(c, Ready, 1, 1);
    var w: set<nat> := {};
    assert w + {0} == {0};
    assert Missed(c).commits == s.commits + [Commit(0, Some(1), true)];
    assert Apply(c, s, LateCommit(0)) == Missed(c);
    assert Missed(c).commits[0] == Commit(0, Some(1), true) && 0 !in Missed(c).conns[1].absorbed;
  }

  lemma ReaderCatchesUp(c: Config, rest: Path) returns (path: Path)
    requires NoColon(c.vfs) && c.locks && rest.Cons? && Valid(c, CaughtUp(c, Ready, 1, 1), rest)
    ensures path.Cons? && Valid(c, CaughtUp(c, Idle, -1, 0), path) && End(Fresh(), path) == End(Fresh(), rest)
  {
    OnlyOwnMarkersAreRead(c.vfs, c.file, c.vfs, c.file, 1);
    OriginMaxIs([Marker(c, 1)], Prefix(c), 1);
    var s1 := CaughtUp(c, Leased, -1, 0);
    var s2 := CaughtUp(c, Asked(1), -1, 0);
    var s3 := CaughtUp(c, Behind, -1, 1);
    var s4 := CaughtUp(c, Reading, -1, 1);
    var s5 := CaughtUp(c, Ready, 1, 1);
    path := Cons(EndBarrier(1), s5, rest);
    assert Valid(c, s4, path) && End(s4, path) == End(Fresh(), rest);
    path := Cons(StartBarrier(1), s4, path);
    assert Valid(c, s3, path) && End(s3, path) == End(Fresh(), rest);
    path := Cons(Target(1), s3, path);
    assert Valid(c, s2, path) && End(s2, path) == End(Fresh(), rest);
    path := Cons(Ask(1), s2, path);
    assert Valid(c, s1, path) && End(s1, path) == End(Fresh(), rest);
    path := Cons(Lease(1, false), s1, path);
  }

  /** Connection 0, its barrier owed, commits nothing, bumps for a write it abandoned and publishes epoch 1. */
  lemma WriterAbandons(c: Config, rest: Path) returns (path: Path)
    requires NoColon(c.vfs) && c.locks && rest.Cons? && Valid(c, CaughtUp(c, Idle, -1, 0), rest)
    ensures path.Cons? && Valid(c, Pair(c, Writer(-1, Behind), NewConn(0), 0, 0, [], []), path)
    ensures End(Fresh(), path) == End(Fresh(), rest)
  {
    var n := NewConn(0);
    var s4 := Pair(c, Writer(-1, Reading), n, 0, 0, [], []);
    var s5 := Pair(c, Writer(0, Ready), n, 0, 0, [], []);
    var s6 := Pair(c, Writer(1, Bumped(1, None, false)), n, 1, 0, [], []);
    path := Cons(HoldMarker(0), CaughtUp(c, Idle, -1, 0), rest);
    assert Valid(c, s6, path) && End(s6, path) == End(Fresh(), rest);
    path := Cons(Bump(0, false), s6, path);
    assert Valid(c, s5, path) && End(s5, path) == End(Fresh(), rest);
    path := Cons(EndBarrier(0), s5, path);
    assert Valid(c, s4, path) && End(s4, path) == End(Fresh(), rest);
    path := Cons(StartBarrier(0), s4, path);
  }

  lemma WriterStarts(c: Config, rest: Path) returns (path: Path)
    requires NoColon(c.vfs) && c.locks && rest.Cons?
    requires Valid(c, Pair(c, Writer(-1, Behind), NewConn(0), 0, 0, [], []), rest)
    ensures Init(c, Fresh()) && Valid(c, Fresh(), path) && End(Fresh(), path) == End(Fresh(), rest)
  {
    var n := NewConn(0);
    var s1 := Pair(c, Writer(-1, Leased), n, 0, 0, [], []);
    var s2 := Pair(c, Writer(-1, Asked(0)), n, 0, 0, [], []);
    var s3 := Pair(c, Writer(-1, Behind), n, 0, 0, [], []);
    path := Cons(Target(0), s3, rest);
    assert Valid(c, s2, path) && End(s2, path) == End(Fresh(), rest);
    path := Cons(Ask(0), s2, path);
    assert Valid(c, s1, path) && End(s1, path) == End(Fresh(), rest);
    path := Cons(Lease(0, true), s1, path);
  }

  /**
    * The family `LateCommitIsSafeIff` excludes is reachable: connection 1 ends
    * ready to run its query, marked current over a commit it missed.
    */
  lemma LateCommitCanBeMissed(c: Config) returns (steps: seq<Step>)
    requires NoColon(c.vfs) && c.locks
    ensures Init(c, Fresh()) && CanRun(c, Fresh(), steps)
    ensures
      var r := Run(c, Fresh(), steps);
      && |r.conns| == 2 && r.conns[1].phase == Ready && r.conns[1].seen == 1
      && r.commits == [Commit(0, Some(1), true)] && !CoversLate(r, 1)
  {
    LateCommitLands(c);
    var path := Cons(LateCommit(0), Missed(c), Nil);
    path := ReaderCatchesUp(c, path);
    path := WriterAbandons(c, path);
    path := WriterStarts(c, path);
    PathRuns(c, Fresh(), path);
    assert End(Fresh(), path) == Missed(c);
    steps := Steps(path);
  }
}
