/**
  * A row as an object: `row[name] = value`, column after column. What one
  * assignment does depends on the row's prototype, which a `__proto__` column can
  * set: ECMA-262 (2024), sections 10.1.9.2 (ordinary objects), 10.4.5.5 (typed
  * arrays) and 20.1.3.8 (the `__proto__` accessor), in strict mode.
  */
module RowObjects {
  import opened Basics
  import opened Unicode
  import opened Wire

  /** A row's values: a Number that is an integer, one given by its bits, and the rest. */
  datatype JS =
    | JNull
    | JInteger(n: int)
    | JDouble(bits: seq<Byte>)
    | JBigInt(n: int)
    | JString(units: seq<Unit>)
    | JBytes(bytes: seq<Byte>)

  /** A row's prototype: `Object.prototype`, none, or a blob's `Uint8Array`. */
  datatype Proto = Plain | Nobody | Array(bytes: seq<Byte>)

  /** A row object: its own keys, and its prototype. */
  datatype Row = Row(own: map<string, JS>, proto: Proto)

  const PROTO := "__proto__"

  /** Inherited by a typed array, and not writable: getters without a setter, and a constant. */
  predicate IsReadOnly(name: string)
  {
    || name == "length" || name == "byteLength" || name == "byteOffset" || name == "buffer"
    || name == "BYTES_PER_ELEMENT"
  }

  /** Section 7.1.21's canonical numeric strings, as far as integers go; `numeric` is the platform's test. */
  ghost predicate KnowsIntegers(numeric: string -> bool)
  {
    forall k: nat | k < 0x20_0000_0000_0000 :: numeric(Decimal(k))
  }

  /** The name of an element of an array of that length. */
  predicate IsIndex(name: string, length: nat)
  {
    AllDigits(name) && Decimal(ToNat(name)) == name && ToNat(name) < length
  }

  /** What `row.__proto__ = v` leaves: only null and objects are taken. */
  function Reparented(row: Row, v: JS): Row
  {
    match v
    case JNull => row.(proto := Nobody)
    case JBytes(bytes) => row.(proto := Array(bytes))
    case _ => row
  }

  /** `row[name] = v`; None is a TypeError. */
  function Assign(numeric: string -> bool, row: Row, name: string, v: JS): Option<Row>
  {
    var kept := Some(row.(own := row.own[name := v]));
    if name in row.own || row.proto.Nobody? then kept
    else if name == PROTO then Some(Reparented(row, v))
    else if row.proto.Plain? then kept
    else if IsReadOnly(name) then None
    else if numeric(name) && !IsIndex(name, |row.proto.bytes|) then Some(row)
    else kept
  }

  function IndexOf(names: seq<string>, name: string): (i: nat)
    ensures i <= |names| && (i < |names| ==> names[i] == name) && (forall j | 0 <= j < i :: names[j] != name)
  {
    if names == [] then 0 else if names[0] == name then 0 else 1 + IndexOf(names[1..], name)
  }

  /** One assignment of the loop: the first `__proto__` is skipped. */
  function Assigned(numeric: string -> bool, row: Row, names: seq<string>, i: nat, v: JS): Option<Row>
    requires i < |names|
  {
    if i == IndexOf(names, PROTO) then Some(row) else Assign(numeric, row, names[i], v)
  }

  /** The object for the first `n` columns; None once an assignment has thrown. */
  function Built(numeric: string -> bool, names: seq<string>, values: seq<JS>, n: nat): Option<Row>
    requires n <= |names| && n <= |values|
  {
    if n == 0 then Some(Row(map[], Plain))
    else
      var before := Built(numeric, names, values, n - 1);
      if before == None then None else Assigned(numeric, before.value, names, n - 1, values[n - 1])
  }

  // ------------------------------------------------------------ on names and values

  /** A `__proto__` column that is assigned: every one but the first. */
  predicate IsLater(names: seq<string>, i: nat)
  {
    IndexOf(names, PROTO) < i < |names| && names[i] == PROTO
  }

  /** The prototype the columns before `n` leave: none for good once null, else the last blob's. */
  function Behind(names: seq<string>, values: seq<JS>, n: nat): (p: Proto)
    requires n <= |names| && n <= |values|
    ensures p == Nobody <==> exists i | 0 <= i < n :: IsLater(names, i) && values[i].JNull?
    ensures p == Plain <==> forall i | 0 <= i < n && IsLater(names, i) :: !values[i].JNull? && !values[i].JBytes?
    ensures p.Array? ==>
              exists i | 0 <= i < n ::
                && IsLater(names, i) && values[i] == JBytes(p.bytes)
                && forall j | i < j < n && IsLater(names, j) :: !values[j].JBytes?
  {
    if n == 0 then Plain
    else
      var before := Behind(names, values, n - 1);
      if before == Nobody || !IsLater(names, n - 1) then before
      else match values[n - 1]
           case JNull => Nobody
           case JBytes(bytes) => Array(bytes)
           case _ => before
  }

  /** A column behind a blob whose name an array keeps to itself: numeric, and no index of it. */
  predicate IsSwallowed(numeric: string -> bool, names: seq<string>, values: seq<JS>, i: nat)
    requires i < |names| && i < |values|
  {
    var p := Behind(names, values, i);
    && p.Array? && names[i] != PROTO && !IsReadOnly(names[i])
    && numeric(names[i]) && !IsIndex(names[i], |p.bytes|)
  }

  /** A column behind a blob whose name an array refuses, unless it is a key already. */
  predicate IsRefused(names: seq<string>, values: seq<JS>, i: nat)
    requires i < |names| && i < |values|
  {
    Behind(names, values, i).Array? && IsReadOnly(names[i]) && names[i] !in names[..i]
  }

  /** The last column of that name among the first `n`, or `n`. */
  function LastOf(names: seq<string>, n: nat, name: string): (i: nat)
    requires n <= |names|
    ensures i <= n && (i < n ==> names[i] == name && forall j | i < j < n :: names[j] != name)
    ensures i == n ==> forall j | 0 <= j < n :: names[j] != name
  {
    if n == 0 then 0
    else if names[n - 1] == name then n - 1
    else var i := LastOf(names, n - 1, name); if i == n - 1 then n else i
  }

  /** An assignment that throws ends the decoding. */
  lemma {:induction false} NoneStays(numeric: string -> bool, names: seq<string>, values: seq<JS>, i: nat, n: nat)
    requires i <= n <= |names| && n <= |values| && Built(numeric, names, values, i) == None
    ensures Built(numeric, names, values, n) == None
    decreases n - i
  {
    if i < n { NoneStays(numeric, names, values, i + 1, n); }
  }

  // ------------------------------------------------------------------------ theorems

  /** The prototype is the one the columns say; without one, `__proto__` is a key like any other. */
  lemma {:induction false} PrototypeIs(numeric: string -> bool, names: seq<string>, values: seq<JS>, n: nat)
    requires n <= |names| && n <= |values| && Built(numeric, names, values, n).Some?
    ensures var row := Built(numeric, names, values, n).value;
            && row.proto == Behind(names, values, n)
            && (PROTO in row.own ==> row.proto == Nobody)
  {
    if n > 0 {
      PrototypeIs(numeric, names, values, n - 1);
      var before := Built(numeric, names, values, n - 1).value;
      NextPrototype(numeric, before, names, values, n - 1);
    }
  }

  lemma NextPrototype(numeric: string -> bool, row: Row, names: seq<string>, values: seq<JS>, i: nat)
    requires i < |names| && i < |values| && Assigned(numeric, row, names, i, values[i]).Some?
    requires row.proto == Behind(names, values, i) && (PROTO in row.own ==> row.proto == Nobody)
    ensures var next := Assigned(numeric, row, names, i, values[i]).value;
            next.proto == Behind(names, values, i + 1) && (PROTO in next.own ==> next.proto == Nobody)
  {
  }

  /** `__proto__` is a key if and only if a column of that name follows one, itself not the first, that is null. */
  lemma {:induction false} ProtoIsAKeyIff(numeric: string -> bool, names: seq<string>, values: seq<JS>, n: nat)
    requires n <= |names| && n <= |values| && Built(numeric, names, values, n).Some?
    ensures PROTO in Built(numeric, names, values, n).value.own <==>
            exists i, j | 0 <= i < j < n :: IsLater(names, i) && values[i].JNull? && names[j] == PROTO
  {
    if n > 0 {
      ProtoIsAKeyIff(numeric, names, values, n - 1);
      PrototypeIs(numeric, names, values, n - 1);
    }
  }

  /** Any other column is a key if and only if a column of its name was not swallowed. */
  lemma {:induction false} ColumnIsAKeyIff(numeric: string -> bool, names: seq<string>, values: seq<JS>, n: nat, name: string)
    requires n <= |names| && n <= |values| && Built(numeric, names, values, n).Some? && name != PROTO
    ensures name in Built(numeric, names, values, n).value.own <==>
            exists i | 0 <= i < n :: names[i] == name && !IsSwallowed(numeric, names, values, i)
  {
    if n > 0 {
      ColumnIsAKeyIff(numeric, names, values, n - 1, name);
      PrototypeIs(numeric, names, values, n - 1);
      NextColumn(numeric, Built(numeric, names, values, n - 1).value, names, values, n - 1, name);
    }
  }

  lemma NextColumn(numeric: string -> bool, row: Row, names: seq<string>, values: seq<JS>, i: nat, name: string)
    requires i < |names| && i < |values| && Assigned(numeric, row, names, i, values[i]).Some?
    requires row.proto == Behind(names, values, i) && name != PROTO
    ensures name in Assigned(numeric, row, names, i, values[i]).value.own <==>
            name in row.own || (names[i] == name && !IsSwallowed(numeric, names, values, i))
  {
  }

  /** A key holds the last value of its name. */
  lemma {:induction false} KeyHoldsTheLast(numeric: string -> bool, names: seq<string>, values: seq<JS>, n: nat, name: string)
    requires n <= |names| && n <= |values| && Built(numeric, names, values, n).Some?
    requires name in Built(numeric, names, values, n).value.own
    ensures LastOf(names, n, name) < n && Built(numeric, names, values, n).value.own[name] == values[LastOf(names, n, name)]
  {
    if n > 0 && name in Built(numeric, names, values, n - 1).value.own {
      KeyHoldsTheLast(numeric, names, values, n - 1, name);
    }
  }

  /** A name an array refuses is a key as soon as one column of it was assigned. */
  lemma {:induction false} ReadOnlyIsAKeyIff(numeric: string -> bool, names: seq<string>, values: seq<JS>, n: nat, name: string)
    requires n <= |names| && n <= |values| && Built(numeric, names, values, n).Some? && IsReadOnly(name)
    ensures name != PROTO && (name in Built(numeric, names, values, n).value.own <==> name in names[..n])
  {
    assert name != PROTO by { assert |PROTO| == 9; }
    ColumnIsAKeyIff(numeric, names, values, n, name);
    if name in names[..n] {
      var i :| 0 <= i < n && names[..n][i] == name;
      assert names[i] == name && !IsSwallowed(numeric, names, values, i);
    }
  }

  lemma {:induction false} NextThrowsIff(numeric: string -> bool, names: seq<string>, values: seq<JS>, n: nat)
    requires n < |names| && n < |values| && Built(numeric, names, values, n).Some?
    ensures Built(numeric, names, values, n + 1) == None <==> IsRefused(names, values, n)
  {
    PrototypeIs(numeric, names, values, n);
    if IsReadOnly(names[n]) { ReadOnlyIsAKeyIff(numeric, names, values, n, names[n]); }
  }

  /** Decoding throws if and only if some column is refused. */
  lemma {:induction false} ThrowsIff(numeric: string -> bool, names: seq<string>, values: seq<JS>, n: nat)
    requires n <= |names| && n <= |values|
    ensures Built(numeric, names, values, n) == None <==> exists i | 0 <= i < n :: IsRefused(names, values, i)
  {
    if n > 0 {
      ThrowsIff(numeric, names, values, n - 1);
      if Built(numeric, names, values, n - 1).Some? { NextThrowsIff(numeric, names, values, n - 1); }
    }
  }

  /** Every column but `__proto__` is a key if and only if none is refused and each name has one not swallowed. */
  lemma {:induction false} EveryColumnIsAKeyIff(numeric: string -> bool, names: seq<string>, values: seq<JS>, n: nat)
    requires n <= |names| && n <= |values|
    ensures (Built(numeric, names, values, n).Some? &&
             forall i | 0 <= i < n && names[i] != PROTO :: names[i] in Built(numeric, names, values, n).value.own) <==>
            ((forall i | 0 <= i < n :: !IsRefused(names, values, i)) &&
             forall i | 0 <= i < n && names[i] != PROTO ::
               exists j | 0 <= j < n :: names[j] == names[i] && !IsSwallowed(numeric, names, values, j))
  {
    ThrowsIff(numeric, names, values, n);
    if Built(numeric, names, values, n).Some? {
      forall i | 0 <= i < n && names[i] != PROTO
        ensures names[i] in Built(numeric, names, values, n).value.own <==>
                exists j | 0 <= j < n :: names[j] == names[i] && !IsSwallowed(numeric, names, values, j)
      {
        ColumnIsAKeyIff(numeric, names, values, n, names[i]);
      }
    }
  }

  /** Every column but `__proto__` is a key, with the last value of its name: so whenever no later `__proto__` column holds a blob. */
  lemma {:induction false} EveryColumnIsAKey(numeric: string -> bool, names: seq<string>, values: seq<JS>, n: nat, name: string)
    requires n <= |names| && n <= |values| && name != PROTO
    requires forall i | 0 <= i < n && IsLater(names, i) :: !values[i].JBytes?
    ensures Built(numeric, names, values, n).Some?
    ensures var row, last := Built(numeric, names, values, n).value, LastOf(names, n, name);
            && (name in row.own <==> last < n)
            && (last < n ==> row.own[name] == values[last])
  {
    NoneBehind(names, values, n);
    ThrowsIff(numeric, names, values, n);
    ColumnIsAKeyIff(numeric, names, values, n, name);
    var last := LastOf(names, n, name);
    if last < n {
      assert names[last] == name && !IsSwallowed(numeric, names, values, last);
      KeyHoldsTheLast(numeric, names, values, n, name);
    }
  }

  lemma {:induction false} NoneBehind(names: seq<string>, values: seq<JS>, n: nat)
    requires n <= |names| && n <= |values|
    requires forall i | 0 <= i < n && IsLater(names, i) :: !values[i].JBytes?
    ensures forall i | 0 <= i <= n :: !Behind(names, values, i).Array?
    ensures forall i | 0 <= i < n :: !IsRefused(names, values, i)
  {
  }

  /** The prototype is left alone if and only if no later `__proto__` column holds null or a blob. */
  lemma PrototypeIsKeptIff(numeric: string -> bool, names: seq<string>, values: seq<JS>)
    requires |values| <= |names| && Built(numeric, names, values, |values|).Some?
    ensures Built(numeric, names, values, |values|).value.proto == Plain <==>
            forall i | 0 <= i < |values| && IsLater(names, i) :: !values[i].JNull? && !values[i].JBytes?
  {
    PrototypeIs(numeric, names, values, |values|);
  }

  // ------------------------------------------------------------- where it goes wrong

  /** Two columns `__proto__`, the second null: the row has no prototype. */
  lemma NullTakesThePrototype(numeric: string -> bool)
    ensures Built(numeric, [PROTO, PROTO], [JInteger(1), JNull], 2) == Some(Row(map[], Nobody))
  {
    var names, values := [PROTO, PROTO], [JInteger(1), JNull];
    assert IndexOf(names, PROTO) == 0;
    assert Built(numeric, names, values, 0) == Some(Row(map[], Plain));
    assert Built(numeric, names, values, 1) == Some(Row(map[], Plain));
  }

  /** A third one is then a key. */
  lemma ProtoBecomesAKey(numeric: string -> bool)
    ensures Built(numeric, [PROTO, PROTO, PROTO], [JInteger(1), JNull, JInteger(5)], 3) ==
            Some(Row(map[PROTO := JInteger(5)], Nobody))
  {
    var names, values := [PROTO, PROTO, PROTO], [JInteger(1), JNull, JInteger(5)];
    assert IndexOf(names, PROTO) == 0;
    assert Built(numeric, names, values, 0) == Some(Row(map[], Plain));
    assert Built(numeric, names, values, 1) == Some(Row(map[], Plain));
    assert Built(numeric, names, values, 2) == Some(Row(map[], Nobody));
  }

  /** Behind a blob of one byte a column `5` is lost. */
  lemma NumberedColumnIsLost(numeric: string -> bool)
    requires KnowsIntegers(numeric)
    ensures Built(numeric, [PROTO, PROTO, "5"], [JInteger(1), JBytes([7]), JInteger(3)], 3) ==
            Some(Row(map[], Array([7])))
  {
    var names, values := [PROTO, PROTO, "5"], [JInteger(1), JBytes([7]), JInteger(3)];
    assert IndexOf(names, PROTO) == 0;
    assert Built(numeric, names, values, 0) == Some(Row(map[], Plain));
    assert Built(numeric, names, values, 1) == Some(Row(map[], Plain));
    assert Built(numeric, names, values, 2) == Some(Row(map[], Array([7])));
    assert Decimal(5) == "5" && numeric(Decimal(5));
    assert |"5"| == 1 && !IsIndex("5", 1);
  }

  /** Behind a blob a column `length` makes the decoder throw. */
  lemma LengthThrows(numeric: string -> bool)
    ensures Built(numeric, [PROTO, PROTO, "length"], [JInteger(1), JBytes([7]), JInteger(3)], 3) == None
  {
    var names, values := [PROTO, PROTO, "length"], [JInteger(1), JBytes([7]), JInteger(3)];
    assert IndexOf(names, PROTO) == 0;
    assert Built(numeric, names, values, 0) == Some(Row(map[], Plain));
    assert Built(numeric, names, values, 1) == Some(Row(map[], Plain));
    assert Built(numeric, names, values, 2) == Some(Row(map[], Array([7])));
    assert |"length"| != |PROTO|;
  }
}
