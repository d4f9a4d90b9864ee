/**
  * The keyed job pool: lanes that take items, run a worker on each, and wait
  * when everything left is blocked by a key in use. A step is what one lane does
  * between two suspensions, or a worker ending.
  */
module RunPool {
  import opened Basics

  type Key = nat

  /** `Waiting(e)` awaits the release made after `e` completions. */
  datatype Lane = Ready | Running(item: nat) | Waiting(since: nat) | Ended

  datatype Outcome = Fulfilled(value: int) | Rejected(reason: int)

  /**
    * `starts` is every item a worker was called on, in order, and `on` and `user`
    * the lane that took an item, and a key, last: for the statements.
    */
  datatype State = State(
    keys: seq<Option<Key>>, pending: seq<nat>, busy: set<Key>, results: seq<Option<Outcome>>,
    lanes: seq<Lane>, completions: nat, starts: seq<nat>, on: map<nat, nat>, user: map<Key, nat>)

  datatype Event = Step(lane: nat) | Complete(lane: nat, outcome: Outcome) | Wake(lane: nat)

  // ------------------------------------------------------------------- the choice

  predicate Free(keys: seq<Option<Key>>, busy: set<Key>, keyed: bool, item: nat)
  {
    item < |keys| && if keyed then keys[item].Some? && keys[item].value !in busy else keys[item] == None
  }

  /** The first pending item that is free, as a position; the length when there is none. */
  function FirstFree(keys: seq<Option<Key>>, busy: set<Key>, keyed: bool, pending: seq<nat>): (at: nat)
    ensures at <= |pending| && (at < |pending| ==> Free(keys, busy, keyed, pending[at]))
    ensures forall i | 0 <= i < at :: !Free(keys, busy, keyed, pending[i])
  {
    if pending == [] || Free(keys, busy, keyed, pending[0]) then 0
    else 1 + FirstFree(keys, busy, keyed, pending[1..])
  }

  /** A free item with a key first; else the first without one. */
  function Choice(s: State): (at: nat)
    ensures at <= |s.pending|
  {
    var keyed := FirstFree(s.keys, s.busy, true, s.pending);
    if keyed < |s.pending| then keyed else FirstFree(s.keys, s.busy, false, s.pending)
  }

  method FindFree(keys: seq<Option<Key>>, busy: set<Key>, keyed: bool, pending: seq<nat>) returns (at: nat)
    ensures at == FirstFree(keys, busy, keyed, pending)
  {
    at := 0;
    while at < |pending| && !Free(keys, busy, keyed, pending[at])
      invariant 0 <= at <= |pending|
      invariant at + FirstFree(keys, busy, keyed, pending[at..]) == FirstFree(keys, busy, keyed, pending)
    {
      assert pending[at..][1..] == pending[at + 1..];
      at := at + 1;
    }
  }

  // --------------------------------------------------------------------- the steps

  predicate Enabled(s: State, e: Event)
  {
    match e
    case Step(l) => l < |s.lanes| && s.lanes[l] == Ready
    case Complete(l, _) => l < |s.lanes| && s.lanes[l].Running?
    case Wake(l) => l < |s.lanes| && s.lanes[l].Waiting? && s.lanes[l].since < s.completions
  }

  function KeyOf(s: State, item: nat): Option<Key> { if item < |s.keys| then s.keys[item] else None }

  function Keys(k: Option<Key>): set<Key> { if k.Some? then {k.value} else {} }

  function Start(s: State, l: nat, at: nat): State
    requires l < |s.lanes| && at < |s.pending|
  {
    var item := s.pending[at];
    s.(pending := s.pending[..at] + s.pending[at + 1..], busy := s.busy + Keys(KeyOf(s, item)),
       lanes := s.lanes[l := Running(item)], starts := s.starts + [item],
       on := s.on[item := l], user := if KeyOf(s, item).Some? then s.user[KeyOf(s, item).value := l] else s.user)
  }

  function Apply(s: State, e: Event): State
    requires Enabled(s, e)
  {
    match e
    case Step(l) =>
      if s.pending == [] then s.(lanes := s.lanes[l := Ended])
      else if Choice(s) == |s.pending| then s.(lanes := s.lanes[l := Waiting(s.completions)])
      else Start(s, l, Choice(s))
    case Complete(l, outcome) =>
      var item := s.lanes[l].item;
      s.(lanes := s.lanes[l := Ready], busy := s.busy - Keys(KeyOf(s, item)), completions := s.completions + 1,
         results := if item < |s.results| then s.results[item := Some(outcome)] else s.results)
    case Wake(l) => s.(lanes := s.lanes[l := Ready])
  }

  function Count(n: nat): (r: seq<nat>)
    ensures |r| == n && forall i | 0 <= i < n :: r[i] == i
  {
    seq(n, i => i)
  }

  function Init(keys: seq<Option<Key>>, concurrency: nat): State
  {
    var n := |keys|;
    State(keys, Count(n), {}, seq(n, _ => None), seq(if concurrency < n then concurrency else n, _ => Ready), 0, [], map[], map[])
  }

  // --------------------------------------------------------------------- invariant

  /** An item is pending, or was started once. */
  predicate StartsOk(s: State)
  {
    && NoDuplicate(s.pending) && NoDuplicate(s.starts)
    && (forall x | x in s.pending :: x < |s.keys| && x !in s.starts)
    && (forall x | x in s.starts :: x < |s.keys|)
    && (forall x: nat | x < |s.keys| :: x in s.pending || x in s.starts)
  }

  /** A started item is on one lane, or has its result. */
  predicate ItemsOk(s: State)
  {
    && |s.results| == |s.keys|
    && (forall l | 0 <= l < |s.lanes| && s.lanes[l].Running? ::
          s.lanes[l].item in s.starts && s.lanes[l].item < |s.keys| && s.results[s.lanes[l].item] == None)
    && (forall l, m | 0 <= l < m < |s.lanes| && s.lanes[l].Running? && s.lanes[m].Running? :: s.lanes[l].item != s.lanes[m].item)
    && (forall x: nat | x < |s.keys| && s.results[x].Some? :: x in s.starts)
    && (forall x | x in s.starts && x < |s.keys| && s.results[x] == None ::
          x in s.on && s.on[x] < |s.lanes| && s.lanes[s.on[x]] == Running(x))
  }

  /** A key in use is that of exactly one running item. */
  predicate KeysOk(s: State)
  {
    && (forall l | 0 <= l < |s.lanes| && s.lanes[l].Running? && KeyOf(s, s.lanes[l].item).Some? ::
          KeyOf(s, s.lanes[l].item).value in s.busy)
    && (forall l, m | 0 <= l < m < |s.lanes| && s.lanes[l].Running? && s.lanes[m].Running? && KeyOf(s, s.lanes[l].item).Some? ::
          KeyOf(s, s.lanes[l].item) != KeyOf(s, s.lanes[m].item))
    && (forall k | k in s.busy ::
          k in s.user && s.user[k] < |s.lanes| && s.lanes[s.user[k]].Running? && KeyOf(s, s.lanes[s.user[k]].item) == Some(k))
  }

  predicate LanesOk(s: State) { ItemsOk(s) && KeysOk(s) }

  /** A lane that waits for the next completion waits while another lane's worker runs; one that ended left nothing. */
  predicate WaitsOk(s: State)
  {
    && (forall l | 0 <= l < |s.lanes| && s.lanes[l].Waiting? :: s.lanes[l].since <= s.completions)
    && (forall l | 0 <= l < |s.lanes| && s.lanes[l] == Waiting(s.completions) ::
          exists m :: 0 <= m < |s.lanes| && s.lanes[m].Running?)
    && (forall l | 0 <= l < |s.lanes| && s.lanes[l] == Ended :: s.pending == [])
    && (|s.keys| > 0 ==> s.lanes != [])
  }

  predicate Inv(s: State) { StartsOk(s) && LanesOk(s) && WaitsOk(s) }

  lemma InitKeeps(keys: seq<Option<Key>>, concurrency: nat)
    requires concurrency >= 1
    ensures Inv(Init(keys, concurrency)) && |Init(keys, concurrency).lanes| <= concurrency
  {
    var s := Init(keys, concurrency);
    forall x: nat | x < |keys|
      ensures x in s.pending
    {
      assert s.pending[x] == x;
    }
  }

  lemma RemoveAt(q: seq<nat>, at: nat)
    requires at < |q| && NoDuplicate(q)
    ensures var r := q[..at] + q[at + 1..];
            NoDuplicate(r) && forall x :: x in r <==> x in q && x != q[at]
  {
    var r := q[..at] + q[at + 1..];
    forall x
      ensures x in r <==> x in q && x != q[at]
    {
      if x in q && x != q[at] {
        var i :| 0 <= i < |q| && q[i] == x;
        assert r[if i < at then i else i - 1] == x;
      }
    }
  }

  lemma StartKeepsStarts(s: State, l: nat, at: nat)
    requires StartsOk(s) && l < |s.lanes| && at < |s.pending|
    ensures StartsOk(Start(s, l, at))
  {
    RemoveAt(s.pending, at);
    assert s.pending[at] in s.pending;
  }

  /** The item chosen runs beside no other of its key. */
  lemma ChosenIsFree(s: State)
    requires StartsOk(s) && Choice(s) < |s.pending|
    ensures var item := s.pending[Choice(s)];
            item in s.pending && item < |s.keys| && (s.keys[item].Some? ==> s.keys[item].value !in s.busy)
  {
    assert s.pending[Choice(s)] in s.pending;
  }

  lemma StartKeepsItems(s: State, l: nat, at: nat)
    requires StartsOk(s) && ItemsOk(s) && l < |s.lanes| && s.lanes[l] == Ready && at < |s.pending|
    ensures ItemsOk(Start(s, l, at))
  {
    assert s.pending[at] in s.pending;
  }

  lemma StartKeepsKeys(s: State, l: nat)
    requires StartsOk(s) && KeysOk(s) && l < |s.lanes| && s.lanes[l] == Ready && Choice(s) < |s.pending|
    ensures KeysOk(Start(s, l, Choice(s)))
  {
    ChosenIsFree(s);
  }

  lemma CompleteKeepsItems(s: State, l: nat, outcome: Outcome)
    requires ItemsOk(s) && Enabled(s, Complete(l, outcome))
    ensures ItemsOk(Apply(s, Complete(l, outcome)))
  {
  }

  lemma CompleteKeepsKeys(s: State, l: nat, outcome: Outcome)
    requires KeysOk(s) && Enabled(s, Complete(l, outcome))
    ensures KeysOk(Apply(s, Complete(l, outcome)))
  {
  }

  /** A lane that does not start an item leaves what is running alone. */
  lemma IdleKeepsLanes(s: State, l: nat, lane: Lane)
    requires LanesOk(s) && l < |s.lanes| && !s.lanes[l].Running? && !lane.Running?
    ensures LanesOk(s.(lanes := s.lanes[l := lane]))
  {
  }

  /** With items left and none free, some key is in use, so some worker runs. */
  lemma BlockedMeansRunning(s: State)
    requires StartsOk(s) && LanesOk(s) && s.pending != [] && Choice(s) == |s.pending|
    ensures exists m :: 0 <= m < |s.lanes| && s.lanes[m].Running?
  {
    var item := s.pending[0];
    assert item in s.pending;
    assert !Free(s.keys, s.busy, true, item) && !Free(s.keys, s.busy, false, item);
    assert s.lanes[s.user[s.keys[item].value]].Running?;
  }

  lemma StepKeepsWaits(s: State, l: nat)
    requires Inv(s) && Enabled(s, Step(l))
    ensures WaitsOk(Apply(s, Step(l)))
  {
    var t := Apply(s, Step(l));
    if s.pending != [] && Choice(s) == |s.pending| { BlockedMeansRunning(s); }
    forall w | 0 <= w < |t.lanes| && t.lanes[w] == Waiting(t.completions)
      ensures exists m :: 0 <= m < |t.lanes| && t.lanes[m].Running?
    {
      var m :| 0 <= m < |s.lanes| && s.lanes[m].Running?;
      assert t.lanes[m].Running?;
    }
    if s.pending != [] && Choice(s) < |s.pending| {
      assert forall w | 0 <= w < |s.lanes| :: s.lanes[w] != Ended;
    }
  }

  lemma WakeKeepsWaits(s: State, l: nat)
    requires WaitsOk(s) && Enabled(s, Wake(l))
    ensures WaitsOk(Apply(s, Wake(l)))
  {
    var t := Apply(s, Wake(l));
    forall w | 0 <= w < |t.lanes| && t.lanes[w] == Waiting(t.completions)
      ensures exists m :: 0 <= m < |t.lanes| && t.lanes[m].Running?
    {
      assert s.lanes[w] == Waiting(s.completions);
      var m :| 0 <= m < |s.lanes| && s.lanes[m].Running?;
      assert t.lanes[m].Running?;
    }
  }

  lemma StepKeeps(s: State, e: Event)
    requires Inv(s) && Enabled(s, e)
    ensures Inv(Apply(s, e))
  {
    match e
    case Step(l) =>
      StepKeepsWaits(s, l);
      if s.pending == [] {
        IdleKeepsLanes(s, l, Ended);
      } else if Choice(s) == |s.pending| {
        IdleKeepsLanes(s, l, Waiting(s.completions));
      } else {
        StartKeepsStarts(s, l, Choice(s));
        StartKeepsItems(s, l, Choice(s));
        StartKeepsKeys(s, l);
      }
    case Complete(l, outcome) =>
      CompleteKeepsItems(s, l, outcome);
      CompleteKeepsKeys(s, l, outcome);
    case Wake(l) =>
      WakeKeepsWaits(s, l);
      IdleKeepsLanes(s, l, Ready);
  }

  // ---------------------------------------------------------------------- theorems

  /** The item no worker runs beside: its key is free, or it has none. */
  predicate Takes(s: State, item: nat) { item < |s.keys| && (s.keys[item].Some? ==> s.keys[item].value !in s.busy) }

  /** Before every other: a keyed item before one without a key, and of two alike the first pending. */
  predicate Preferred(s: State, at: nat)
    requires at < |s.pending| && s.pending[at] < |s.keys|
  {
    forall i | 0 <= i < |s.pending| && i != at && Takes(s, s.pending[i]) ::
      if s.keys[s.pending[at]].Some? then s.keys[s.pending[i]].Some? ==> at < i
      else s.keys[s.pending[i]] == None && at < i
  }

  /**
    * One turn: a worker is called on the preferred of the items that can run now, its
    * key in use from then on; without one the lane waits, and without any item it ends.
    */
  lemma TurnOutcome(s: State, l: nat)
    requires Inv(s) && Enabled(s, Step(l))
    ensures var t := Apply(s, Step(l));
            && t.results == s.results && t.completions == s.completions && |t.lanes| == |s.lanes|
            && (forall m | 0 <= m < |s.lanes| && m != l :: t.lanes[m] == s.lanes[m])
            && (if s.pending == [] then t.lanes[l] == Ended && t.pending == [] && t.busy == s.busy
                else if exists i :: 0 <= i < |s.pending| && Takes(s, s.pending[i]) then
                  exists at :: && 0 <= at < |s.pending| && Takes(s, s.pending[at]) && Preferred(s, at)
                               && t.lanes[l] == Running(s.pending[at])
                               && t.pending == s.pending[..at] + s.pending[at + 1..]
                               && t.starts == s.starts + [s.pending[at]]
                               && t.busy == s.busy + (match s.keys[s.pending[at]] case Some(k) => {k} case None => {})
                else t.lanes[l] == Waiting(s.completions) && t.pending == s.pending && t.busy == s.busy)
  {
    ChoiceOutcome(s);
  }

  lemma ChoiceOutcome(s: State)
    requires StartsOk(s)
    ensures Choice(s) < |s.pending| <==> exists i :: 0 <= i < |s.pending| && Takes(s, s.pending[i])
    ensures Choice(s) < |s.pending| ==>
              s.pending[Choice(s)] < |s.keys| && Takes(s, s.pending[Choice(s)]) && Preferred(s, Choice(s))
  {
    assert forall i | 0 <= i < |s.pending| :: s.pending[i] in s.pending;
    assert forall i | 0 <= i < |s.pending| ::
      Takes(s, s.pending[i]) <==> Free(s.keys, s.busy, true, s.pending[i]) || Free(s.keys, s.busy, false, s.pending[i]);
  }

  /** A worker ends: its outcome is its item's result, its key is free, and the lanes that wait may go on. */
  lemma CompleteOutcome(s: State, l: nat, outcome: Outcome)
    requires Inv(s) && Enabled(s, Complete(l, outcome))
    ensures var t, item := Apply(s, Complete(l, outcome)), s.lanes[l].item;
            && t.lanes == s.lanes[l := Ready] && item < |s.results| && t.results == s.results[item := Some(outcome)]
            && t.pending == s.pending && (item < |s.keys| && s.keys[item].Some? ==> s.keys[item].value !in t.busy)
            && (forall m | 0 <= m < |s.lanes| && m != l && s.lanes[m].Waiting? :: Enabled(t, Wake(m)))
  {
  }

  predicate CanRun(s: State, events: seq<Event>)
    decreases |events|
  {
    events == [] || (Enabled(s, events[0]) && CanRun(Apply(s, events[0]), events[1..]))
  }

  function Run(s: State, events: seq<Event>): State
    requires CanRun(s, events)
    decreases |events|
  {
    if events == [] then s else Run(Apply(s, events[0]), events[1..])
  }

  lemma {:induction false} RunKeeps(s: State, events: seq<Event>)
    requires Inv(s) && CanRun(s, events)
    ensures Inv(Run(s, events)) && |Run(s, events).lanes| == |s.lanes| && Run(s, events).keys == s.keys
    decreases |events|
  {
    if events != [] {
      StepKeeps(s, events[0]);
      RunKeeps(Apply(s, events[0]), events[1..]);
    }
  }

  /**
    * At any moment: never more workers than `concurrency`, none twice on one
    * item, no two on items of one key.
    */
  lemma LanesExclude(keys: seq<Option<Key>>, concurrency: nat, events: seq<Event>)
    requires concurrency >= 1 && CanRun(Init(keys, concurrency), events)
    ensures var t := Run(Init(keys, concurrency), events);
            && |t.lanes| <= concurrency && NoDuplicate(t.starts)
            && forall l, m | 0 <= l < m < |t.lanes| && t.lanes[l].Running? && t.lanes[m].Running? ::
                 t.lanes[l].item != t.lanes[m].item
                 && (KeyOf(t, t.lanes[l].item).Some? ==> KeyOf(t, t.lanes[l].item) != KeyOf(t, t.lanes[m].item))
  {
    InitKeeps(keys, concurrency);
    RunKeeps(Init(keys, concurrency), events);
  }

  /** What the workers called on item `x` ended with during a run, in order. */
  function Ends(s: State, events: seq<Event>, x: nat): seq<Outcome>
    requires CanRun(s, events)
    decreases |events|
  {
    if events == [] then []
    else
      var rest := Ends(Apply(s, events[0]), events[1..], x);
      if events[0].Complete? && s.lanes[events[0].lane].item == x then [events[0].outcome] + rest else rest
  }

  /** The outcomes as a result: none, or the only one. */
  function Single(outcomes: seq<Outcome>): Option<Outcome> { if |outcomes| == 1 then Some(outcomes[0]) else None }

  /** An item that has its result keeps it; any other gets the outcome of the one worker called on it. */
  lemma {:induction false} ResultIsItsWorkers(s: State, events: seq<Event>, x: nat)
    requires Inv(s) && CanRun(s, events) && x < |s.keys|
    ensures x < |Run(s, events).results|
    ensures s.results[x].Some? ==> Ends(s, events, x) == [] && Run(s, events).results[x] == s.results[x]
    ensures s.results[x] == None ==> |Ends(s, events, x)| <= 1 && Run(s, events).results[x] == Single(Ends(s, events, x))
    decreases |events|
  {
    if events != [] {
      StepKeeps(s, events[0]);
      ResultIsItsWorkers(Apply(s, events[0]), events[1..], x);
    }
  }

  /**
    * When every lane has ended, one worker was called on each item, and its outcome
    * is in the item's own place.
    */
  lemma EndedMeansDone(keys: seq<Option<Key>>, concurrency: nat, events: seq<Event>)
    requires concurrency >= 1 && CanRun(Init(keys, concurrency), events)
    requires forall l | 0 <= l < |Run(Init(keys, concurrency), events).lanes| ::
               Run(Init(keys, concurrency), events).lanes[l] == Ended
    ensures var t := Run(Init(keys, concurrency), events);
            && |t.results| == |keys| && NoDuplicate(t.starts)
            && forall x: nat | x < |keys| ::
                 x in t.starts && t.results[x].Some? && Ends(Init(keys, concurrency), events, x) == [t.results[x].value]
  {
    InitKeeps(keys, concurrency);
    RunKeeps(Init(keys, concurrency), events);
    var t := Run(Init(keys, concurrency), events);
    if |keys| > 0 { assert t.lanes[0] == Ended; }
    assert t.pending == [];
    forall x: nat | x < |keys|
      ensures x in t.starts && t.results[x].Some? && Ends(Init(keys, concurrency), events, x) == [t.results[x].value]
    {
      ResultIsItsWorkers(Init(keys, concurrency), events, x);
      assert x in t.starts;
    }
  }

  /** No wake-up is lost: unless every lane has ended, some lane can go on, or some worker runs. */
  lemma NeverStuck(s: State)
    requires Inv(s) && exists l :: 0 <= l < |s.lanes| && s.lanes[l] != Ended
    ensures exists e: Event :: Enabled(s, e)
  {
    var l :| 0 <= l < |s.lanes| && s.lanes[l] != Ended;
    match s.lanes[l]
    case Ready => assert Enabled(s, Step(l));
    case Running(_) => assert Enabled(s, Complete(l, Fulfilled(0)));
    case Waiting(since) =>
      if since < s.completions {
        assert Enabled(s, Wake(l));
      } else {
        var m :| 0 <= m < |s.lanes| && s.lanes[m].Running?;
        assert Enabled(s, Complete(m, Fulfilled(0)));
      }
  }

  // -------------------------------------------------------------------- termination

  function Load(lane: Lane, completions: nat): nat
  {
    match lane
    case Ready => 2
    case Running(_) => 0
    case Waiting(since) => if since < completions then 3 else 1
    case Ended => 0
  }

  function Loads(lanes: seq<Lane>, completions: nat): (n: nat)
    ensures n <= 3 * |lanes|
  {
    if lanes == [] then 0 else Load(lanes[0], completions) + Loads(lanes[1..], completions)
  }

  function RunningLanes(lanes: seq<Lane>): (n: nat)
    ensures n <= |lanes|
  {
    if lanes == [] then 0 else (if lanes[0].Running? then 1 else 0) + RunningLanes(lanes[1..])
  }

  /** What is left to start and to finish, before how many turns the lanes may take until then. */
  function Measure(s: State): nat
  {
    (2 * |s.pending| + RunningLanes(s.lanes)) * (3 * |s.lanes| + 1) + Loads(s.lanes, s.completions)
  }

  lemma {:induction false} SetLane(lanes: seq<Lane>, l: nat, lane: Lane, completions: nat)
    requires l < |lanes|
    ensures Loads(lanes[l := lane], completions) == Loads(lanes, completions) - Load(lanes[l], completions) + Load(lane, completions)
    ensures RunningLanes(lanes[l := lane]) ==
            RunningLanes(lanes) - (if lanes[l].Running? then 1 else 0) + (if lane.Running? then 1 else 0)
  {
    if l > 0 {
      SetLane(lanes[1..], l - 1, lane, completions);
      assert lanes[l := lane][1..] == lanes[1..][l - 1 := lane];
    } else {
      assert lanes[l := lane][1..] == lanes[1..];
    }
  }

  lemma Fewer(a: nat, b: nat, k: nat, x: nat, y: nat)
    requires a < b && x <= 3 * k && y >= 0
    ensures a * (3 * k + 1) + x < b * (3 * k + 1) + y
  {
    assert (a + 1) * (3 * k + 1) <= b * (3 * k + 1);
  }

  /** Every step and every worker that ends brings the pool nearer its end. */
  lemma EveryStepCounts(s: State, e: Event)
    requires Inv(s) && Enabled(s, e)
    ensures Measure(Apply(s, e)) < Measure(s)
  {
    var t := Apply(s, e);
    match e
    case Step(l) =>
      SetLane(s.lanes, l, t.lanes[l], s.completions);
      if s.pending != [] && Choice(s) < |s.pending| {
        Fewer(2 * |t.pending| + RunningLanes(t.lanes), 2 * |s.pending| + RunningLanes(s.lanes), |s.lanes|,
              Loads(t.lanes, t.completions), Loads(s.lanes, s.completions));
      }
    case Complete(l, _) =>
      SetLane(s.lanes, l, Ready, s.completions);
      Fewer(2 * |t.pending| + RunningLanes(t.lanes), 2 * |s.pending| + RunningLanes(s.lanes), |s.lanes|,
            Loads(t.lanes, t.completions), Loads(s.lanes, s.completions));
    case Wake(l) => SetLane(s.lanes, l, Ready, s.completions);
  }

  /** So a run is no longer than the measure it starts from: if every worker ends, so does the pool. */
  lemma {:induction false} RunsEnd(s: State, events: seq<Event>)
    requires Inv(s) && CanRun(s, events)
    ensures |events| <= Measure(s)
    decreases |events|
  {
    if events != [] {
      StepKeeps(s, events[0]);
      EveryStepCounts(s, events[0]);
      RunsEnd(Apply(s, events[0]), events[1..]);
    }
  }

  // ------------------------------------------------------------------- as it runs

  /** What the lanes share; each method is what one lane does up to its next suspension. */
  class JobPool {
    const keys: seq<Option<Key>>
    var pending: seq<nat>
    var busy: set<Key>
    var results: seq<Option<Outcome>>
    var lanes: seq<Lane>
    var completions: nat
    ghost var starts: seq<nat>
    ghost var on: map<nat, nat>
    ghost var user: map<Key, nat>

    ghost function View(): State
      reads this
    {
      State(keys, pending, busy, results, lanes, completions, starts, on, user)
    }

    constructor (keys: seq<Option<Key>>, concurrency: nat)
      requires concurrency >= 1
      ensures View() == Init(keys, concurrency) && Inv(View())
    {
      var n := |keys|;
      this.keys := keys;
      pending, busy, results := Count(n), {}, seq(n, _ => None);
      lanes := seq(if concurrency < n then concurrency else n, _ => Ready);
      completions, starts, on, user := 0, [], map[], map[];
      new;
      InitKeeps(keys, concurrency);
    }

    /** Splices the item out, claims its key and calls the worker. */
    method Take(l: nat, at: nat)
      requires l < |lanes| && at < |pending| && pending[at] < |keys|
      modifies this`pending, this`busy, this`lanes, this`starts, this`on, this`user
      ensures View() == Start(old(View()), l, at)
    {
      var item := pending[at];
      pending := pending[..at] + pending[at + 1..];
      if keys[item].Some? {
        busy := busy + {keys[item].value};
        user := user[keys[item].value := l];
      }
      lanes, starts, on := lanes[l := Running(item)], starts + [item], on[item := l];
    }

    /** One turn of a lane's loop, up to its worker's call or its wait. */
    method Turn(l: nat)
      requires Inv(View()) && Enabled(View(), Step(l))
      modifies this
      ensures View() == Apply(old(View()), Step(l)) && Inv(View())
    {
      ghost var s := View();
      if pending == [] {
        lanes := lanes[l := Ended];
      } else {
        var at := FindFree(keys, busy, true, pending);
        if at == |pending| { at := FindFree(keys, busy, false, pending); }
        if at == |pending| {
          lanes := lanes[l := Waiting(completions)];
        } else {
          assert pending[at] in pending;
          Take(l, at);
        }
      }
      StepKeeps(s, Step(l));
    }

    /** A worker ends, well or not: its result is in its item's place, and every waiting lane is woken. */
    method Complete(l: nat, outcome: Outcome)
      requires Inv(View()) && Enabled(View(), Event.Complete(l, outcome))
      modifies this
      ensures View() == Apply(old(View()), Event.Complete(l, outcome)) && Inv(View())
    {
      StepKeeps(View(), Event.Complete(l, outcome));
      var item := lanes[l].item;
      results := results[item := Some(outcome)];
      if keys[item].Some? { busy := busy - {keys[item].value}; }
      completions := completions + 1;
      lanes := lanes[l := Ready];
    }
  }
}
