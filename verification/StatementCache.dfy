/**
  * The worker's cache of prepared statements, least recently used first, bounded
  * by a count and by the bytes SQLite reports for each statement.
  */
module StatementCache {
  import opened Basics

  datatype Item = Item(sql: string, handle: int, weight: nat)

  datatype Bounds = Bounds(maxEntries: nat, maxBytes: nat)

  // ---------------------------------------------------------------- specification

  function Weight(items: seq<Item>): nat { if items == [] then 0 else items[0].weight + Weight(items[1..]) }

  predicate DistinctKeys(items: seq<Item>) { forall i, j | 0 <= i < j < |items| :: items[i].sql != items[j].sql }

  predicate DistinctHandles(items: seq<Item>) { forall i, j | 0 <= i < j < |items| :: items[i].handle != items[j].handle }

  /** Where a key stands, or the length. */
  function Find(items: seq<Item>, sql: string): (i: nat)
    ensures i <= |items| && (i < |items| ==> items[i].sql == sql) && forall j | 0 <= j < i :: items[j].sql != sql
  {
    if items == [] || items[0].sql == sql then 0 else 1 + Find(items[1..], sql)
  }

  predicate Has(items: seq<Item>, sql: string) { Find(items, sql) < |items| }

  function At(items: seq<Item>, sql: string): Option<Item>
  {
    if Has(items, sql) then Some(items[Find(items, sql)]) else None
  }

  function Without(items: seq<Item>, sql: string): (r: seq<Item>)
    ensures |r| == |items| - (if Has(items, sql) then 1 else 0)
    ensures forall j | 0 <= j < |r| :: r[j] == if j < Find(items, sql) then items[j] else items[j + 1]
  {
    var i := Find(items, sql);
    if i < |items| then items[..i] + items[i + 1..] else items
  }

  /** The entries with `item` set, before anything is evicted: youngest last. */
  function With(items: seq<Item>, item: Item): (r: seq<Item>)
    ensures |r| > 0 && r[|r| - 1] == item
  {
    Without(items, item.sql) + [item]
  }

  /** `x` stands somewhere before `y`. */
  ghost predicate InThatOrder(a: seq<Item>, x: Item, y: Item)
  {
    exists i, j | 0 <= i < j < |a| :: a[i] == x && a[j] == y
  }

  /** Setting an entry moves nobody else: the others stay in their order, and the one of that key goes. */
  lemma SetMovesNobodyElse(items: seq<Item>, item: Item, j: nat, k: nat)
    requires DistinctKeys(items) && j < k < |With(items, item)| - 1
    ensures InThatOrder(items, With(items, item)[j], With(items, item)[k])
  {
    var r, at := Without(items, item.sql), Find(items, item.sql);
    var i, h := if j < at then j else j + 1, if k < at then k else k + 1;
    assert items[i] == r[j] && items[h] == r[k] && With(items, item)[j] == r[j] && With(items, item)[k] == r[k];
  }

  lemma SetLosesNobodyElse(items: seq<Item>, item: Item, i: nat)
    requires DistinctKeys(items) && i < |items| && items[i].sql != item.sql
    ensures items[i] in With(items, item)
    ensures |With(items, item)| == |items| + (if Has(items, item.sql) then 0 else 1)
  {
    var r, at := Without(items, item.sql), Find(items, item.sql);
    assert r[if i < at then i else i - 1] == items[i];
  }

  /** How many of the oldest have to go for the rest to weigh less than the budget. */
  function OverBytes(items: seq<Item>, maxBytes: nat): (n: nat)
    ensures n <= |items|
  {
    if items == [] || Weight(items) < maxBytes then 0 else 1 + OverBytes(items[1..], maxBytes)
  }

  lemma {:induction false} OverBytesStops(items: seq<Item>, maxBytes: nat)
    ensures var n := OverBytes(items, maxBytes); n == |items| || Weight(items[n..]) < maxBytes
  {
    var n := OverBytes(items, maxBytes);
    if n > 0 {
      OverBytesStops(items[1..], maxBytes);
      assert items[1..][n - 1..] == items[n..];
    } else {
      assert items[0..] == items;
    }
  }

  lemma {:induction false} OverBytesNeeds(items: seq<Item>, maxBytes: nat, k: nat)
    requires k < OverBytes(items, maxBytes)
    ensures Weight(items[k..]) >= maxBytes
  {
    if k > 0 {
      OverBytesNeeds(items[1..], maxBytes, k - 1);
      assert items[1..][k - 1..] == items[k..];
    } else {
      assert items[0..] == items;
    }
  }

  /**
    * How many of the oldest setting `item` evicts: what the byte bound asks of
    * the others, not looking at `item`; then what the count still asks for.
    */
  function Evictions(items: seq<Item>, item: Item, bounds: Bounds): (n: nat)
    ensures n <= |With(items, item)| && |With(items, item)| - n <= bounds.maxEntries
  {
    var others := Without(items, item.sql);
    var n := OverBytes(others, bounds.maxBytes);
    if |others| + 1 - n > bounds.maxEntries then |others| + 1 - bounds.maxEntries else n
  }

  function Kept(items: seq<Item>, item: Item, bounds: Bounds): seq<Item>
  {
    With(items, item)[Evictions(items, item, bounds)..]
  }

  /** One eviction fewer would break a bound. */
  lemma NothingEvictedNeedlessly(items: seq<Item>, item: Item, bounds: Bounds)
    requires Evictions(items, item, bounds) > 0
    ensures var others, n := Without(items, item.sql), Evictions(items, item, bounds);
            || |others| + 1 - (n - 1) > bounds.maxEntries
            || Weight(others[n - 1..]) >= bounds.maxBytes
  {
    var others, n := Without(items, item.sql), Evictions(items, item, bounds);
    if |others| + 1 - (n - 1) <= bounds.maxEntries { OverBytesNeeds(others, bounds.maxBytes, n - 1); }
  }

  // ------------------------------------------------------------------- the bounds

  lemma {:induction false} WeightAppend(a: seq<Item>, b: seq<Item>)
    ensures Weight(a + b) == Weight(a) + Weight(b)
  {
    if a == [] {
      assert a + b == b;
    } else {
      WeightAppend(a[1..], b);
      assert (a + b)[1..] == a[1..] + b;
    }
  }

  lemma {:induction false} WeightSplit(items: seq<Item>, k: nat)
    requires k <= |items|
    ensures Weight(items) == Weight(items[..k]) + Weight(items[k..])
  {
    WeightAppend(items[..k], items[k..]);
    assert items[..k] + items[k..] == items;
  }

  lemma {:induction false} WeightOne(item: Item)
    ensures Weight([item]) == item.weight
  {
    assert [item][1..] == [];
  }

  lemma {:induction false} WeightWithout(items: seq<Item>, sql: string)
    requires Has(items, sql)
    ensures Weight(Without(items, sql)) == Weight(items) - At(items, sql).value.weight
  {
    var i := Find(items, sql);
    WeightSplit(items, i);
    WeightAppend(items[..i], items[i + 1..]);
    assert items[i..][1..] == items[i + 1..];
  }

  lemma {:induction false} WeightWith(items: seq<Item>, item: Item)
    ensures Weight(With(items, item)) == Weight(Without(items, item.sql)) + item.weight
  {
    WeightAppend(Without(items, item.sql), [item]);
    WeightOne(item);
  }

  lemma {:induction false} OneIsLight(items: seq<Item>, i: nat)
    requires i < |items|
    ensures items[i].weight <= Weight(items)
  {
    if i > 0 { OneIsLight(items[1..], i - 1); }
  }

  /** Without some one entry it is under its budget. */
  ghost predicate UnderButOne(items: seq<Item>, maxBytes: nat)
  {
    items == [] || exists x :: x in items && Weight(items) - x.weight < maxBytes
  }

  /** The newest entry may overshoot the budget, alone. */
  lemma {:induction false} KeptIsBounded(items: seq<Item>, item: Item, bounds: Bounds)
    requires bounds.maxBytes > 0
    ensures |Kept(items, item, bounds)| <= bounds.maxEntries
    ensures UnderButOne(Kept(items, item, bounds), bounds.maxBytes)
    ensures bounds.maxEntries > 0 ==> Weight(Kept(items, item, bounds)) < bounds.maxBytes + item.weight
  {
    var others, n := Without(items, item.sql), Evictions(items, item, bounds);
    if n <= |others| {
      var m := OverBytes(others, bounds.maxBytes);
      OverBytesStops(others, bounds.maxBytes);
      LighterTail(others, m, n);
      AppendCut(others, item, n);
      LightAndOne(others[n..], item, bounds.maxBytes);
    }
  }

  lemma {:induction false} LighterTail(items: seq<Item>, m: nat, n: nat)
    requires m <= n <= |items|
    ensures Weight(items[n..]) <= Weight(items[m..])
    ensures m == |items| ==> Weight(items[m..]) == 0
  {
    WeightSplit(items[m..], n - m);
    assert items[m..][n - m..] == items[n..];
  }

  lemma {:induction false} LightAndOne(items: seq<Item>, item: Item, maxBytes: nat)
    requires Weight(items) < maxBytes
    ensures UnderButOne(items + [item], maxBytes) && Weight(items + [item]) < maxBytes + item.weight
  {
    WeightAppend(items, [item]);
    WeightOne(item);
    assert item in items + [item];
  }

  /** A budget of zero bounds nothing: then any entry at all is over it. */
  lemma {:induction false} BoundedIff(items: seq<Item>, item: Item, bounds: Bounds)
    requires bounds.maxEntries > 0
    ensures UnderButOne(Kept(items, item, bounds), bounds.maxBytes) <==> bounds.maxBytes > 0
  {
    var kept := Kept(items, item, bounds);
    if bounds.maxBytes > 0 {
      KeptIsBounded(items, item, bounds);
    } else {
      forall x | x in kept
        ensures x.weight <= Weight(kept)
      {
        var i :| 0 <= i < |kept| && kept[i] == x;
        OneIsLight(kept, i);
      }
    }
  }

  /** One heavy statement under a budget of zero: nothing is evicted, and what is kept is over it without its heaviest. */
  lemma {:induction false} NoBudgetBoundsNothing(item: Item)
    requires item.weight > 0
    ensures Kept([], item, Bounds(1, 0)) == [item] && Weight([item]) > 0 && !UnderButOne([item], 0)
  {
    assert Without([], item.sql) == [] && With([], item) == [item];
    WeightOne(item);
    BoundedIff([], item, Bounds(1, 0));
  }

  lemma {:induction false} InWithout(items: seq<Item>, sql: string, i: nat)
    requires i < |items| && i != Find(items, sql)
    ensures items[i] in Without(items, sql)
  {
    assert Without(items, sql)[if i < Find(items, sql) then i else i - 1] == items[i];
  }

  /** Losing an entry, or making it the youngest, keeps it under its budget but for one. */
  lemma {:induction false} MovedStaysBounded(items: seq<Item>, sql: string, maxBytes: nat)
    requires UnderButOne(items, maxBytes) && Has(items, sql)
    ensures UnderButOne(Without(items, sql), maxBytes)
    ensures UnderButOne(With(items, At(items, sql).value), maxBytes)
  {
    var r, k := Without(items, sql), Find(items, sql);
    var x :| x in items && Weight(items) - x.weight < maxBytes;
    var i :| 0 <= i < |items| && items[i] == x;
    WeightWithout(items, sql);
    WeightWith(items, items[k]);
    assert items[k] in With(items, items[k]);
    if i != k {
      InWithout(items, sql, i);
      assert x in With(items, items[k]);
    } else if r != [] {
      assert r[0] in r;
    }
  }

  // ------------------------------------------------------------------ the handles

  predicate OwnHandle(items: seq<Item>, item: Item)
  {
    forall i | 0 <= i < |items| && items[i].handle == item.handle :: items[i].sql == item.sql
  }

  /** Each handle is kept or reported, once, and none is both: they are told apart all along. */
  lemma {:induction false} WithIsDistinct(items: seq<Item>, item: Item)
    requires DistinctKeys(items) && DistinctHandles(items) && OwnHandle(items, item)
    ensures DistinctKeys(With(items, item)) && DistinctHandles(With(items, item))
  {
    var r, k := Without(items, item.sql), Find(items, item.sql);
    forall j | 0 <= j < |r|
      ensures r[j].sql != item.sql && r[j].handle != item.handle
    {
      var i := if j < k then j else j + 1;
      assert r[j] == items[i];
      if k < |items| { assert items[i].sql != items[k].sql; }
    }
  }

  ghost predicate Holds(items: seq<Item>, handle: int) { exists x :: x in items && x.handle == handle }

  /** A handle held before is kept or reported, unless its key was set to another: then it is lost. */
  lemma {:induction false} HandleIsLostIff(items: seq<Item>, item: Item, i: nat)
    requires DistinctKeys(items) && DistinctHandles(items) && i < |items|
    ensures Holds(With(items, item), items[i].handle) <==> items[i].sql != item.sql || items[i].handle == item.handle
  {
    var r, k := Without(items, item.sql), Find(items, item.sql);
    if items[i].sql != item.sql {
      assert r[if i < k then i else i - 1] == items[i];
      assert items[i] in With(items, item);
    } else {
      assert i == k;
      forall j | 0 <= j < |r|
        ensures r[j].handle != items[k].handle
      {
        assert r[j] == items[if j < k then j else j + 1];
      }
      assert item in With(items, item);
    }
  }

  /** A key set again to another handle: the first is neither kept nor reported. */
  lemma {:induction false} SetAgainLosesTheHandle(sql: string, handle: int, other: int)
    requires handle != other
    ensures With([Item(sql, handle, 1)], Item(sql, other, 1)) == [Item(sql, other, 1)]
    ensures !Holds(With([Item(sql, handle, 1)], Item(sql, other, 1)), handle)
  {
    var items := [Item(sql, handle, 1)];
    assert Find(items, sql) == 0 && Without(items, sql) == [];
    HandleIsLostIff(items, Item(sql, other, 1), 0);
  }

  // ------------------------------------------------------------------- the order

  /** `used` says when each key was last set or found: the entries are in that order. */
  predicate InOrder(items: seq<Item>, used: map<string, nat>)
  {
    && (forall i | 0 <= i < |items| :: items[i].sql in used)
    && (forall i, j | 0 <= i < j < |items| :: used[items[i].sql] < used[items[j].sql])
  }

  predicate UsedBefore(items: seq<Item>, used: map<string, nat>, now: nat)
  {
    forall i | 0 <= i < |items| :: items[i].sql in used && used[items[i].sql] < now
  }

  lemma {:induction false} UsedNow(items: seq<Item>, item: Item, used: map<string, nat>, now: nat)
    requires DistinctKeys(items) && InOrder(items, used) && UsedBefore(items, used, now)
    ensures InOrder(With(items, item), used[item.sql := now]) && UsedBefore(With(items, item), used[item.sql := now], now + 1)
  {
    var r, k := Without(items, item.sql), Find(items, item.sql);
    forall j | 0 <= j < |r|
      ensures r[j].sql != item.sql && r[j].sql in used && used[r[j].sql] < now
    {
      assert r[j] == items[if j < k then j else j + 1];
    }
  }

  /** Entries told apart by key and by handle, in order of use. */
  predicate Apart(items: seq<Item>, used: map<string, nat>, now: nat)
  {
    DistinctKeys(items) && DistinctHandles(items) && InOrder(items, used) && UsedBefore(items, used, now)
  }

  /** Setting or finding an entry now. */
  lemma Touched(items: seq<Item>, item: Item, used: map<string, nat>, now: nat)
    requires Apart(items, used, now) && OwnHandle(items, item)
    ensures Apart(With(items, item), used[item.sql := now], now + 1)
  {
    WithIsDistinct(items, item);
    UsedNow(items, item, used, now);
  }

  lemma SuffixApart(items: seq<Item>, n: nat, used: map<string, nat>, now: nat)
    requires n <= |items| && Apart(items, used, now)
    ensures Apart(items[n..], used, now)
  {
    assert forall i | 0 <= i < |items| - n :: items[n..][i] == items[n + i];
  }

  lemma KeptApart(items: seq<Item>, item: Item, bounds: Bounds, used: map<string, nat>, now: nat)
    requires Apart(With(items, item), used, now)
    ensures Apart(Kept(items, item, bounds), used, now)
  {
    SuffixApart(With(items, item), Evictions(items, item, bounds), used, now);
  }

  lemma NextCut<T>(items: seq<T>, n: nat)
    requires n < |items|
    ensures items[..n] + [items[n]] == items[..n + 1] && items[n..][1..] == items[n + 1..] && items[n..][0] == items[n]
  {
  }

  lemma TwoCuts<T>(items: seq<T>, n: nat, m: nat)
    requires n + m <= |items|
    ensures items[..n] + items[n..][..m] == items[..n + m] && items[n..][m..] == items[n + m..]
  {
  }

  /** What setting an entry keeps true of what is kept, and of all of it. */
  lemma SetKeeps(items: seq<Item>, item: Item, bounds: Bounds, used: map<string, nat>, now: nat)
    requires Apart(items, used, now) && OwnHandle(items, item)
    ensures var all, kept := With(items, item), Kept(items, item, bounds);
            && Apart(all, used[item.sql := now], now + 1) && Apart(kept, used[item.sql := now], now + 1)
            && |kept| <= bounds.maxEntries && (bounds.maxBytes > 0 ==> UnderButOne(kept, bounds.maxBytes))
  {
    Touched(items, item, used, now);
    KeptApart(items, item, bounds, used[item.sql := now], now + 1);
    if bounds.maxBytes > 0 { KeptIsBounded(items, item, bounds); }
  }

  /** What finding an entry keeps true. */
  lemma FoundKeeps(items: seq<Item>, sql: string, bounds: Bounds, used: map<string, nat>, now: nat)
    requires Apart(items, used, now) && Has(items, sql)
    ensures var all := With(items, At(items, sql).value);
            && Apart(all, used[sql := now], now + 1) && Weight(all) == Weight(items) && |all| == |items|
            && (UnderButOne(items, bounds.maxBytes) ==> UnderButOne(all, bounds.maxBytes))
  {
    var item := At(items, sql).value;
    FoundOwnsHandle(items, sql);
    Touched(items, item, used, now);
    WeightWithout(items, sql);
    WeightWith(items, item);
    if UnderButOne(items, bounds.maxBytes) { MovedStaysBounded(items, sql, bounds.maxBytes); }
  }

  lemma FoundOwnsHandle(items: seq<Item>, sql: string)
    requires DistinctHandles(items) && Has(items, sql)
    ensures OwnHandle(items, At(items, sql).value)
  {
  }

  lemma CutTwice<T>(items: seq<T>, item: T, n: nat, m: nat)
    requires n <= |items| && m <= |items| - n + 1
    ensures items[..n] + (items[n..] + [item])[..m] == (items + [item])[..n + m]
    ensures (items[n..] + [item])[m..] == (items + [item])[n + m..]
  {
    AppendCut(items, item, n);
    TwoCuts(items + [item], n, m);
  }

  lemma AppendCut<T>(items: seq<T>, item: T, n: nat)
    requires n <= |items|
    ensures (items + [item])[n..] == items[n..] + [item] && (items + [item])[..n] == items[..n]
  {
  }

  /** How many each of the two rounds of eviction takes. */
  lemma TwoRounds(items: seq<Item>, item: Item, bounds: Bounds)
    ensures var others := Without(items, item.sql);
            var n := OverBytes(others, bounds.maxBytes);
            var m := if |others| - n + 1 > bounds.maxEntries then |others| - n + 1 - bounds.maxEntries else 0;
            n + m == Evictions(items, item, bounds)
  {
  }

  lemma WithoutApart(items: seq<Item>, sql: string, used: map<string, nat>, now: nat)
    requires Apart(items, used, now)
    ensures Apart(Without(items, sql), used, now)
  {
    var r, k := Without(items, sql), Find(items, sql);
    forall i, j | 0 <= i < j < |r|
      ensures r[i].sql != r[j].sql && r[i].handle != r[j].handle
      ensures r[i].sql in used && r[j].sql in used && used[r[i].sql] < used[r[j].sql]
    {
      var a, b := if i < k then i else i + 1, if j < k then j else j + 1;
      assert r[i] == items[a] && r[j] == items[b] && a < b;
    }
    forall i | 0 <= i < |r|
      ensures r[i].sql in used && used[r[i].sql] < now
    {
      assert r[i] == items[if i < k then i else i + 1];
    }
  }

  // ------------------------------------------------------------------- as it runs

  /** What the two rounds evict and keep is what one cut of the entries with `item` set does. */
  lemma InsertCuts(
    before: seq<Item>, item: Item, bounds: Bounds, heavy: seq<Item>, between: seq<Item>, excess: seq<Item>, after: seq<Item>)
    requires var others := Without(before, item.sql);
             var n := OverBytes(others, bounds.maxBytes);
             heavy == others[..n] && between == others[n..]
    requires var all := between + [item];
             var m := if |all| > bounds.maxEntries then |all| - bounds.maxEntries else 0;
             excess == all[..m] && after == all[m..]
    ensures var n := Evictions(before, item, bounds);
            heavy + excess == With(before, item)[..n] && after == With(before, item)[n..]
  {
    TwoRounds(before, item, bounds);
    var others := Without(before, item.sql);
    CutTwice(others, item, OverBytes(others, bounds.maxBytes), |excess|);
  }

  /** `items` is the map, which iterates in insertion order; `used` and `now` are timestamps, for the statements. */
  class Cache {
    const bounds: Bounds
    var items: seq<Item>
    var total: int
    ghost var used: map<string, nat>
    ghost var now: nat

    ghost predicate Valid()
      reads this
    {
      && Apart(items, used, now)
      && total == Weight(items) && |items| <= bounds.maxEntries
      && (bounds.maxBytes > 0 ==> UnderButOne(items, bounds.maxBytes))
    }

    constructor (bounds: Bounds)
      ensures Valid() && items == [] && this.bounds == bounds
    {
      this.bounds := bounds;
      items, total, used, now := [], 0, map[], 0;
    }

    /** Out of the map and out of the total. */
    method Drop(sql: string) returns (entry: Option<Item>)
      modifies this`items, this`total
      ensures items == Without(old(items), sql) && entry == At(old(items), sql)
      ensures total - Weight(items) == old(total - Weight(items))
    {
      var i := Find(items, sql);
      if i == |items| { return None; }
      entry := Some(items[i]);
      WeightWithout(items, sql);
      items := items[..i] + items[i + 1..];
      total := total - entry.value.weight;
    }

    method EvictOldest()
      requires items != []
      modifies this`items, this`total
      ensures items == old(items)[1..]
      ensures total - Weight(items) == old(total - Weight(items))
    {
      var entry := Drop(items[0].sql);
    }

    /** Evicts while the entries weigh the budget or more. */
    method EvictForBytes() returns (evicted: seq<Item>)
      requires total == Weight(items)
      modifies this`items, this`total
      ensures var n := OverBytes(old(items), bounds.maxBytes);
              evicted == old(items)[..n] && items == old(items)[n..]
      ensures total == Weight(items)
    {
      evicted := [];
      ghost var before, n := items, OverBytes(items, bounds.maxBytes);
      while total >= bounds.maxBytes && items != []
        invariant total == Weight(items) && |evicted| <= |before|
        invariant |evicted| + OverBytes(items, bounds.maxBytes) == n
        invariant evicted == before[..|evicted|] && items == before[|evicted|..]
        decreases |items|
      {
        NextCut(before, |evicted|);
        evicted := evicted + [items[0]];
        EvictOldest();
      }
    }

    /** Evicts while there are more entries than the bound. */
    method EvictForCount() returns (evicted: seq<Item>)
      requires total == Weight(items)
      modifies this`items, this`total
      ensures var n := if |old(items)| > bounds.maxEntries then |old(items)| - bounds.maxEntries else 0;
              evicted == old(items)[..n] && items == old(items)[n..]
      ensures total == Weight(items)
    {
      evicted := [];
      ghost var before := items;
      while |items| > bounds.maxEntries
        invariant total == Weight(items) && |evicted| <= |before|
        invariant evicted == before[..|evicted|] && items == before[|evicted|..]
        invariant |evicted| > 0 ==> |before| - |evicted| >= bounds.maxEntries
        decreases |items|
      {
        NextCut(before, |evicted|);
        evicted := evicted + [items[0]];
        EvictOldest();
      }
    }

    method Append(item: Item)
      modifies this`items, this`total
      ensures items == old(items) + [item] && total - Weight(items) == old(total - Weight(items))
    {
      WeightAppend(items, [item]);
      WeightOne(item);
      items := items + [item];
      total := total + item.weight;
    }

    /** Out with the key, then with what the byte bound asks for: what is there already, without a look at the newcomer. */
    method MakeRoom(sql: string) returns (evicted: seq<Item>)
      requires total == Weight(items)
      modifies this`items, this`total
      ensures total == Weight(items)
      ensures var others := Without(old(items), sql);
              var n := OverBytes(others, bounds.maxBytes);
              evicted == others[..n] && items == others[n..]
    {
      var _ := Drop(sql);
      evicted := EvictForBytes();
    }

    /** The entry, then what the count asks for. */
    method Admit(item: Item) returns (evicted: seq<Item>)
      requires total == Weight(items)
      modifies this`items, this`total
      ensures total == Weight(items)
      ensures var all := old(items) + [item];
              var n := if |all| > bounds.maxEntries then |all| - bounds.maxEntries else 0;
              evicted == all[..n] && items == all[n..]
    {
      Append(item);
      evicted := EvictForCount();
    }

    method Insert(item: Item) returns (evicted: seq<Item>)
      requires total == Weight(items)
      modifies this`items, this`total
      ensures var n := Evictions(old(items), item, bounds);
              evicted == With(old(items), item)[..n] && items == With(old(items), item)[n..]
      ensures total == Weight(items)
    {
      ghost var before := items;
      var heavy := MakeRoom(item.sql);
      ghost var between := items;
      var excess := Admit(item);
      evicted := heavy + excess;
      InsertCuts(before, item, bounds, heavy, between, excess, items);
    }

    /** Taken out of the map and put back at its end. */
    method Reinsert(i: nat)
      requires i < |items| && i == Find(items, items[i].sql)
      modifies this`items
      ensures items == With(old(items), old(items)[i])
    {
      var item := items[i];
      items := items[..i] + items[i + 1..];
      items := items + [item];
    }

    /** The entry found becomes the most recently used. */
    method Get(sql: string) returns (handle: Option<int>)
      requires Valid()
      modifies this
      ensures Valid()
      ensures match At(old(items), sql)
              case None => handle == None && items == old(items)
              case Some(item) => handle == Some(item.handle) && items == With(old(items), item)
    {
      var i := Find(items, sql);
      if i == |items| { return None; }
      FoundKeeps(items, sql, bounds, used, now);
      handle := Some(items[i].handle);
      Reinsert(i);
      used, now := used[sql := now], now + 1;
    }

    /**
      * What is evicted and what is kept are the two ends of the entries with `item`
      * set: in order of use, so the evicted are the least recently used; each with
      * a handle of its own, so none is lost, and none both kept and finalized.
      */
    method Set(item: Item) returns (evicted: seq<Item>)
      requires Valid() && OwnHandle(items, item)
      modifies this
      ensures Valid() && items == Kept(old(items), item, bounds)
      ensures evicted == With(old(items), item)[..Evictions(old(items), item, bounds)]
      ensures Apart(With(old(items), item), used, now)
    {
      ghost var kept := Kept(items, item, bounds);
      SetKeeps(items, item, bounds, used, now);
      evicted := Insert(item);
      assert items == kept;
      used, now := used[item.sql := now], now + 1;
    }

    method Delete(sql: string) returns (handle: Option<int>)
      requires Valid()
      modifies this
      ensures Valid() && items == Without(old(items), sql)
      ensures handle == match At(old(items), sql) case None => None case Some(item) => Some(item.handle)
    {
      if bounds.maxBytes > 0 && Has(items, sql) { MovedStaysBounded(items, sql, bounds.maxBytes); }
      WithoutApart(items, sql, used, now);
      var entry := Drop(sql);
      handle := if entry.Some? then Some(entry.value.handle) else None;
    }

    method Drain() returns (live: seq<int>)
      requires Valid()
      modifies this`items, this`total
      ensures Valid() && items == []
      ensures |live| == |old(items)| && forall i | 0 <= i < |live| :: live[i] == old(items)[i].handle
    {
      live := seq(|items|, i requires 0 <= i < |items| reads this => items[i].handle);
      items, total := [], 0;
    }
  }

  // ------------------------------------------------------------- the verdict memo

  /** A memo's entry: a text and its verdict, weighing nothing. */
  predicate Weightless(items: seq<Item>) { forall i | 0 <= i < |items| :: items[i].weight == 0 }

  lemma {:induction false} WeightlessFits(items: seq<Item>)
    requires Weightless(items)
    ensures Weight(items) == 0 && OverBytes(items, 1) == 0
  {
    if items != [] { WeightlessFits(items[1..]); }
  }

  /** Verdicts by text: the cache's order and its count, and texts no longer than `maxLength`. */
  class VerdictMemo {
    const maxEntries: nat
    const maxLength: nat
    var items: seq<Item>

    ghost predicate Valid()
      reads this
    {
      DistinctKeys(items) && Weightless(items) && |items| <= maxEntries
    }

    constructor (maxEntries: nat, maxLength: nat)
      ensures Valid() && items == [] && this.maxEntries == maxEntries && this.maxLength == maxLength
    {
      this.maxEntries, this.maxLength, items := maxEntries, maxLength, [];
    }

    method Remove(sql: string)
      modifies this`items
      ensures items == Without(old(items), sql)
    {
      var i := Find(items, sql);
      if i < |items| { items := items[..i] + items[i + 1..]; }
    }

    method Get(sql: string) returns (verdict: Option<int>)
      requires Valid()
      modifies this`items
      ensures Valid()
      ensures match At(old(items), sql)
              case None => verdict == None && items == old(items)
              case Some(item) => verdict == Some(item.handle) && items == With(old(items), item)
    {
      var i := Find(items, sql);
      if i == |items| { return None; }
      var item := items[i];
      MovedKeys(items, item);
      Remove(sql);
      items := items + [item];
      verdict := Some(item.handle);
    }

    /** What the statement cache would keep under a byte budget nothing here weighs against. */
    method Set(sql: string, verdict: int)
      requires Valid()
      modifies this`items
      ensures Valid()
      ensures items == if |sql| > maxLength then old(items) else Kept(old(items), Item(sql, verdict, 0), Bounds(maxEntries, 1))
    {
      if |sql| > maxLength { return; }
      ghost var before, item := items, Item(sql, verdict, 0);
      MovedKeys(items, item);
      WeightlessFits(Without(items, sql));
      Remove(sql);
      items := items + [Item(sql, verdict, 0)];
      if |items| <= maxEntries { return; }
      items := items[1..];
    }
  }

  lemma MovedKeys(items: seq<Item>, item: Item)
    requires DistinctKeys(items) && Weightless(items) && item.weight == 0
    ensures DistinctKeys(With(items, item)) && Weightless(With(items, item)) && Weightless(Without(items, item.sql))
  {
    var r, k := Without(items, item.sql), Find(items, item.sql);
    forall j | 0 <= j < |r|
      ensures r[j].sql != item.sql && r[j].weight == 0
    {
      var i := if j < k then j else j + 1;
      assert r[j] == items[i];
      if k < |items| { assert items[i].sql != items[k].sql; }
    }
  }
}
