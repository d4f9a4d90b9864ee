/**
  * The `sql` tag: templates with values and inlined queries, built into one text
  * with numbered placeholders and one list of params.
  */
module SqlTemplate {
  import opened Basics
  import opened SqlText

  /** An interpolated value: a primitive, or an object known by its identity (`json` when it is not binary, a date, …). */
  datatype Value = Primitive(id: nat) | Object(id: nat, json: bool)

  /** `parts[0] ?a parts[1] ?b … parts[N]`, each placeholder's param, and the params. */
  datatype Query = Query(parts: seq<string>, slots: seq<nat>, values: seq<Value>)

  datatype Arg = Given(value: Value) | Inlined(query: Query)

  /** A query that can be inlined anywhere: each of its parts opens nothing it does not close, and holds no placeholder. */
  predicate Closed(q: Query)
  {
    && |q.parts| == |q.slots| + 1
    && (forall k | 0 <= k < |q.slots| :: q.slots[k] < |q.values|)
    && (forall k | 0 <= k < |q.parts| :: ClosedText(q.parts[k]))
  }

  predicate ClosedText(t: string) { Scan(Outside, t) == Outside && Marks(Outside, t) == [] }

  // -------------------------------------------------------------------- rendering

  function Separator(part: string): string { if part != "" && IsDigit(part[0]) then " " else "" }

  /** The text from the `k`-th placeholder on. */
  function Tail(parts: seq<string>, slots: seq<nat>, k: nat): (t: string)
    requires |parts| == |slots| + 1 && k > 0
    ensures t != "" ==> t[0] == '?'
    decreases |parts| - k
  {
    if k >= |parts| then "" else Behind(slots[k - 1] + 1, parts[k], Tail(parts, slots, k + 1))
  }

  /** One placeholder, the part behind it, and the rest. */
  function Behind(n: nat, part: string, rest: string): (t: string)
    ensures t != "" && t[0] == '?'
  {
    "?" + Decimal(n) + (Separator(part) + part + rest)
  }

  function Rendered(parts: seq<string>, slots: seq<nat>): string
    requires |parts| == |slots| + 1
  {
    parts[0] + Tail(parts, slots, 1)
  }

  method Render(parts: seq<string>, slots: seq<nat>) returns (text: string)
    requires |parts| == |slots| + 1
    ensures text == Rendered(parts, slots)
  {
    text := parts[0];
    for k := 1 to |parts|
      invariant text + Tail(parts, slots, k) == Rendered(parts, slots)
    {
      var part := parts[k];
      var digit := part != "" && IsDigit(part[0]);
      TailSplit(text, parts, slots, k);
      text := text + "?" + Decimal(slots[k - 1] + 1) + (if digit then " " else "") + part;
    }
  }

  lemma TailSplit(text: string, parts: seq<string>, slots: seq<nat>, k: nat)
    requires |parts| == |slots| + 1 && 0 < k < |parts|
    ensures text + Tail(parts, slots, k) ==
            text + "?" + Decimal(slots[k - 1] + 1) + Separator(parts[k]) + parts[k] + Tail(parts, slots, k + 1)
  {
    Regrouped(text, "?", Decimal(slots[k - 1] + 1), Separator(parts[k]), parts[k], Tail(parts, slots, k + 1));
  }

  lemma Regrouped(a: string, b: string, c: string, d: string, e: string, f: string)
    ensures a + (b + c + (d + e + f)) == a + b + c + d + e + f
  {
  }

  function Numbers(slots: seq<nat>): (r: seq<nat>)
    ensures |r| == |slots| && forall k | 0 <= k < |r| :: r[k] == slots[k] + 1
  {
    seq(|slots|, k requires 0 <= k < |slots| => slots[k] + 1)
  }

  lemma SeparatedIsClosed(part: string)
    requires ClosedText(part)
    ensures ClosedText(Separator(part) + part)
  {
    if Separator(part) == " " {
      PlainIsOutside(" ");
      ScanJoin(Outside, " ", part);
      MarksJoin(Outside, " ", part);
    } else {
      assert Separator(part) + part == part;
    }
  }

  /** A closed text, and one behind it that cannot fuse with it. */
  lemma ClosedThen(a: string, b: string)
    requires ClosedText(a) && !Fuses(a, b)
    ensures Scan(Outside, a + b) == Scan(Outside, b) && Marks(Outside, a + b) == Marks(Outside, b)
  {
    ScanJoin(Outside, a, b);
    MarksJoin(Outside, a, b);
  }

  /** A placeholder and the closed part behind it add one number in front of what follows. */
  lemma {:induction false} PlaceholderThen(n: nat, part: string, tail: string)
    requires ClosedText(part) && (tail != "" ==> tail[0] == '?')
    ensures Scan(Outside, Behind(n, part, tail)) == Scan(Outside, tail)
    ensures Marks(Outside, Behind(n, part, tail)) == [n] + Marks(Outside, tail)
  {
    var front := Separator(part) + part;
    SeparatedIsClosed(part);
    ClosedThen(front, tail);
    MarkAndRest(Decimal(n), front + tail);
  }

  lemma NumbersCons(slots: seq<nat>, k: nat)
    requires k < |slots|
    ensures Numbers(slots[k..]) == [slots[k] + 1] + Numbers(slots[k + 1..])
  {
  }

  /** What holds of nothing and is kept by one more placeholder in front holds of every tail. */
  lemma {:induction false} TailInduction(holds: (string, seq<nat>) -> bool, parts: seq<string>, slots: seq<nat>, k: nat)
    requires |parts| == |slots| + 1 && 0 < k <= |parts| && holds("", [])
    requires forall n: nat, part, rest, numbers {:trigger Behind(n, part, rest), holds(rest, numbers)} |
               part in parts && (rest != "" ==> rest[0] == '?') && holds(rest, numbers) ::
               holds(Behind(n, part, rest), [n] + numbers)
    ensures holds(Tail(parts, slots, k), Numbers(slots[k - 1..]))
    decreases |parts| - k
  {
    if k < |parts| {
      TailInduction(holds, parts, slots, k + 1);
      NumbersCons(slots, k - 1);
      assert parts[k] in parts;
      assert Tail(parts, slots, k) == Behind(slots[k - 1] + 1, parts[k], Tail(parts, slots, k + 1));
    } else {
      assert slots[k - 1..] == [] && Numbers([]) == [];
    }
  }

  lemma TailReadsBack(parts: seq<string>, slots: seq<nat>, k: nat)
    requires |parts| == |slots| + 1 && 0 < k <= |parts|
    requires forall i | 0 <= i < |parts| :: ClosedText(parts[i])
    ensures Scan(Outside, Tail(parts, slots, k)) == Outside
    ensures Marks(Outside, Tail(parts, slots, k)) == Numbers(slots[k - 1..])
  {
    var holds := (t: string, numbers: seq<nat>) => Scan(Outside, t) == Outside && Marks(Outside, t) == numbers;
    forall n: nat, part, rest, numbers |
      part in parts && (rest != "" ==> rest[0] == '?') && holds(rest, numbers)
      ensures holds(Behind(n, part, rest), [n] + numbers)
    {
      PlaceholderThen(n, part, rest);
    }
    TailInduction(holds, parts, slots, k);
  }

  /**
    * The text of a closed query: outside every literal and comment at its end and
    * at each placeholder, and its placeholders are its slots' numbers, in order.
    */
  lemma RenderedReadsBack(q: Query)
    requires Closed(q)
    ensures Scan(Outside, Rendered(q.parts, q.slots)) == Outside
    ensures Marks(Outside, Rendered(q.parts, q.slots)) == Numbers(q.slots)
  {
    TailReadsBack(q.parts, q.slots, 1);
    assert ClosedText(q.parts[0]);
    ClosedThen(q.parts[0], Tail(q.parts, q.slots, 1));
  }

  // --------------------------------------------------------------------- building

  /** `a` then `b`, kept apart where joining them would open a comment. */
  function Glue(a: string, b: string): string { if Fuses(a, b) then a + " " + b else a + b }

  lemma {:induction false} GlueReads(a: string, b: string)
    requires ClosedText(a)
    ensures Scan(Outside, Glue(a, b)) == Scan(Outside, b) && Marks(Outside, Glue(a, b)) == Marks(Outside, b)
  {
    if Fuses(a, b) {
      PlainIsOutside(" ");
      ClosedThen(" ", b);
      ClosedThen(a, " " + b);
      assert a + " " + b == a + (" " + b);
    } else {
      ClosedThen(a, b);
    }
  }

  function IndexIn(params: seq<Value>, v: Value): (i: nat)
    requires v in params
    ensures i < |params| && params[i] == v
  {
    if params[0] == v then 0 else 1 + IndexIn(params[1..], v)
  }

  /** A value's param: an object is one param however often it appears, a primitive one each time. */
  function WithParam(params: seq<Value>, v: Value): (r: (seq<Value>, nat))
    ensures r.1 < |r.0| && r.0[r.1] == v && params <= r.0
    ensures OneParamEach(params) ==> OneParamEach(r.0)
  {
    if v.Object? && v in params then (params, IndexIn(params, v)) else (params + [v], |params|)
  }

  predicate OneParamEach(params: seq<Value>)
  {
    forall i, j | 0 <= i < j < |params| && params[i].Object? :: params[i] != params[j]
  }

  predicate Shaped(q: Query)
  {
    |q.parts| == |q.slots| + 1 && (forall k | 0 <= k < |q.slots| :: q.slots[k] < |q.values|) && OneParamEach(q.values)
  }

  /** The value bound at each placeholder, in order. */
  function Bound(q: Query): (r: seq<Value>)
    requires Shaped(q)
    ensures |r| == |q.slots| && forall k | 0 <= k < |r| :: r[k] == q.values[q.slots[k]]
  {
    seq(|q.slots|, k requires 0 <= k < |q.slots| => q.values[q.slots[k]])
  }

  function LastPart(q: Query): string
    requires Shaped(q)
  {
    q.parts[|q.parts| - 1]
  }

  function SetLast(q: Query, t: string): (r: Query)
    requires Shaped(q)
    ensures Shaped(r) && LastPart(r) == t && r.slots == q.slots && r.values == q.values
    ensures |r.parts| == |q.parts| && forall k | 0 <= k < |q.parts| - 1 :: r.parts[k] == q.parts[k]
  {
    q.(parts := q.parts[|q.parts| - 1 := t])
  }

  /** A placeholder for `v`, and the part behind it. */
  function Push(q: Query, v: Value, part: string): (r: Query)
    requires Shaped(q)
    ensures Shaped(r) && LastPart(r) == part && Bound(r) == Bound(q) + [v]
    ensures |r.parts| == |q.parts| + 1 && forall k | 0 <= k < |q.parts| :: r.parts[k] == q.parts[k]
  {
    var (values, slot) := WithParam(q.values, v);
    Query(q.parts + [part], q.slots + [slot], values)
  }

  /** An inlined query's placeholders from the `k`-th on, its params found again among this one's. */
  function Inline(q: Query, inner: Query, k: nat): (r: Query)
    requires Shaped(q) && Shaped(inner) && 0 < k <= |inner.parts|
    ensures Shaped(r) && Bound(r) == Bound(q) + Bound(inner)[k - 1..]
    decreases |inner.parts| - k
  {
    if k == |inner.parts| then q
    else Inline(Push(q, Bound(inner)[k - 1], inner.parts[k]), inner, k + 1)
  }

  /** One interpolation and the text behind it. */
  function Step(q: Query, arg: Arg, after: string, jsonb: bool): (r: Query)
    requires Shaped(q) && (arg.Inlined? ==> Shaped(arg.query))
    ensures Shaped(r) && Bound(r) == Bound(q) + Values(arg)
  {
    match arg
    case Inlined(inner) =>
      var t := Inline(SetLast(q, Glue(LastPart(q), inner.parts[0])), inner, 1);
      SetLast(t, Glue(LastPart(t), after))
    case Given(v) =>
      if jsonb && v.Object? && v.json then Push(SetLast(q, LastPart(q) + "jsonb("), v, ")" + after)
      else Push(q, v, after)
  }

  function Values(arg: Arg): seq<Value>
    requires arg.Inlined? ==> Shaped(arg.query)
  {
    if arg.Inlined? then Bound(arg.query) else [arg.value]
  }

  /** Every part closed but perhaps the last, which holds no placeholder. */
  predicate OpenEnded(q: Query)
  {
    && Shaped(q) && Marks(Outside, LastPart(q)) == []
    && forall k | 0 <= k < |q.parts| - 1 :: ClosedText(q.parts[k])
  }

  predicate AllClosed(q: Query) { OpenEnded(q) && Scan(Outside, LastPart(q)) == Outside }

  lemma AllClosedIsClosed(q: Query)
    ensures AllClosed(q) <==> Closed(q) && OneParamEach(q.values)
  {
  }

  lemma PushClosed(q: Query, v: Value, part: string)
    requires AllClosed(q) && Marks(Outside, part) == []
    ensures OpenEnded(Push(q, v, part))
  {
  }

  lemma SetLastOpenEnded(q: Query, t: string)
    requires AllClosed(q) && Marks(Outside, t) == []
    ensures OpenEnded(SetLast(q, t))
  {
  }

  lemma {:induction false} InlineClosed(q: Query, inner: Query, k: nat)
    requires AllClosed(q) && AllClosed(inner) && 0 < k <= |inner.parts|
    ensures AllClosed(Inline(q, inner, k))
    decreases |inner.parts| - k
  {
    if k < |inner.parts| {
      assert ClosedText(inner.parts[k]);
      PushClosed(q, Bound(inner)[k - 1], inner.parts[k]);
      InlineClosed(Push(q, Bound(inner)[k - 1], inner.parts[k]), inner, k + 1);
    }
  }

  const JSONB_OPEN := "jsonb("

  /** Plain text around a value opens nothing. */
  lemma PlainAround(t: string, open: string, close: string, after: string)
    requires ClosedText(t) && SqlText.Plain(open) && SqlText.Plain(close)
    requires (open != "" ==> open[0] != '*') && (close != "" ==> close[|close| - 1] != '-' && close[|close| - 1] != '/')
    ensures ClosedText(t + open)
    ensures Scan(Outside, close + after) == Scan(Outside, after) && Marks(Outside, close + after) == Marks(Outside, after)
  {
    PlainIsOutside(open);
    assert open != "" ==> PlainChar(open[0]);
    ClosedThen(t, open);
    PlainIsOutside(close);
    ClosedThen(close, after);
  }

  /** One interpolation keeps the query closed, up to what the text behind it leaves open. */
  lemma StepKeepsClosed(q: Query, arg: Arg, after: string, jsonb: bool)
    requires AllClosed(q) && (arg.Inlined? ==> AllClosed(arg.query)) && Marks(Outside, after) == []
    ensures var r := Step(q, arg, after, jsonb); OpenEnded(r) && Scan(Outside, LastPart(r)) == Scan(Outside, after)
  {
    match arg
    case Inlined(inner) =>
      assert ClosedText(inner.parts[0]);
      GlueReads(LastPart(q), inner.parts[0]);
      SetLastOpenEnded(q, Glue(LastPart(q), inner.parts[0]));
      var t0 := SetLast(q, Glue(LastPart(q), inner.parts[0]));
      InlineClosed(t0, inner, 1);
      var t := Inline(t0, inner, 1);
      GlueReads(LastPart(t), after);
      SetLastOpenEnded(t, Glue(LastPart(t), after));
    case Given(v) =>
      PlainAround(LastPart(q), JSONB_OPEN, ")", after);
      if jsonb && v.Object? && v.json {
        SetLastOpenEnded(q, LastPart(q) + JSONB_OPEN);
        PushClosed(SetLast(q, LastPart(q) + JSONB_OPEN), v, ")" + after);
      } else {
        PushClosed(q, v, after);
      }
  }

  // -------------------------------------------------------------- a whole template

  predicate ArgsShaped(args: seq<Arg>) { forall i | 0 <= i < |args| && args[i].Inlined? :: Shaped(args[i].query) }

  function ValuesOf(args: seq<Arg>): seq<Value>
    requires ArgsShaped(args)
  {
    if args == [] then [] else ValuesOf(args[..|args| - 1]) + Values(args[|args| - 1])
  }

  predicate Cooked(strings: seq<Option<string>>) { forall s | 0 <= s < |strings| :: strings[s].Some? }

  function Folded(strings: seq<Option<string>>, args: seq<Arg>, jsonb: bool): (r: Query)
    requires |strings| == |args| + 1 && Cooked(strings) && ArgsShaped(args)
    ensures Shaped(r) && Bound(r) == ValuesOf(args)
    decreases |args|
  {
    var n := |args|;
    if n == 0 then Query([strings[0].value], [], [])
    else Step(Folded(strings[..n], args[..n - 1], jsonb), args[n - 1], strings[n].value, jsonb)
  }

  /** A template that ends in a line comment is closed by a line end, so that nothing inlined behind it is commented out. */
  function Built(strings: seq<Option<string>>, args: seq<Arg>, jsonb: bool): (r: Option<Query>)
    requires |strings| == |args| + 1 && ArgsShaped(args)
  {
    if !Usable(strings) then None
    else
      var q := Folded(strings, args, jsonb);
      if Scan(Outside, strings[|args|].value) == Line then Some(SetLast(q, LastPart(q) + "\n")) else Some(q)
  }

  lemma {:induction false} FoldedClosed(strings: seq<Option<string>>, args: seq<Arg>, jsonb: bool)
    requires |strings| == |args| + 1 && Cooked(strings) && ArgsShaped(args)
    requires forall s | 0 <= s < |strings| :: Marks(Outside, strings[s].value) == []
    requires forall s | 0 <= s < |args| :: Scan(Outside, strings[s].value) == Outside
    requires forall i | 0 <= i < |args| && args[i].Inlined? :: AllClosed(args[i].query)
    ensures var q := Folded(strings, args, jsonb);
            OpenEnded(q) && Scan(Outside, LastPart(q)) == Scan(Outside, strings[|args|].value)
    decreases |args|
  {
    var n := |args|;
    if n > 0 {
      FoldedClosed(strings[..n], args[..n - 1], jsonb);
      StepKeepsClosed(Folded(strings[..n], args[..n - 1], jsonb), args[n - 1], strings[n].value, jsonb);
    }
  }

  /**
    * A template of closed queries is a closed query, or is refused; and what it
    * binds is the values interpolated, those of inlined queries in their place.
    */
  lemma BuiltComposes(strings: seq<Option<string>>, args: seq<Arg>, jsonb: bool)
    requires |strings| == |args| + 1 && ArgsShaped(args)
    requires forall i | 0 <= i < |args| && args[i].Inlined? :: AllClosed(args[i].query)
    ensures Built(strings, args, jsonb).Some? <==> Usable(strings)
    ensures Built(strings, args, jsonb).Some? ==>
              var q := Built(strings, args, jsonb).value;
              AllClosed(q) && Bound(q) == ValuesOf(args)
  {
    if Usable(strings) {
      UsableIsUnmarked(strings);
      FoldedClosed(strings, args, jsonb);
      var q := Folded(strings, args, jsonb);
      if Scan(Outside, LastPart(q)) == Line {
        LineEnded(LastPart(q));
        CloseLast(q, LastPart(q) + "\n");
      }
    }
  }

  lemma UsableIsUnmarked(strings: seq<Option<string>>)
    requires Usable(strings)
    ensures forall s | 0 <= s < |strings| :: Marks(Outside, strings[s].value) == []
  {
    forall s | 0 <= s < |strings|
      ensures Marks(Outside, strings[s].value) == []
    {
      NoOwnNoMarks(Outside, strings[s].value, None);
    }
  }

  lemma {:induction false} LineEnded(t: string)
    requires Scan(Outside, t) == Line && Marks(Outside, t) == []
    ensures ClosedText(t + "\n")
  {
    assert Scan(Line, "\n") == Scan(Outside, "\n"[1..]) == Outside;
    assert Marks(Line, "\n") == Marks(Outside, "\n"[1..]) == [];
    ScanJoin(Outside, t, "\n");
    MarksJoin(Outside, t, "\n");
  }

  lemma CloseLast(q: Query, t: string)
    requires OpenEnded(q) && ClosedText(t)
    ensures AllClosed(SetLast(q, t))
  {
  }

  // ------------------------------------------------------- the building, as it runs

  /** The objects already in the query, each with its param. */
  ghost predicate Sees(seen: map<Value, nat>, params: seq<Value>)
  {
    && OneParamEach(params)
    && (forall v :: v in seen <==> v.Object? && v in params)
    && (forall v | v in seen :: seen[v] < |params| && params[seen[v]] == v)
  }

  method SlotFor(seen: map<Value, nat>, params: seq<Value>, v: Value)
    returns (known: map<Value, nat>, grown: seq<Value>, slot: nat)
    requires Sees(seen, params)
    ensures Sees(known, grown) && (grown, slot) == WithParam(params, v)
    ensures if v.Object? && v in params then grown == params && params[slot] == v
            else grown == params + [v] && slot == |params|
  {
    if v.Object? {
      if v in seen {
        assert IndexIn(params, v) == seen[v];
        return seen, params, seen[v];
      }
      known := seen[v := |params|];
    } else {
      known := seen;
    }
    grown, slot := params + [v], |params|;
  }

  /** An inlined query's slots and parts, one after the other. */
  method InlineInto(q: Query, seen: map<Value, nat>, inner: Query) returns (r: Query, known: map<Value, nat>)
    requires Shaped(q) && Shaped(inner) && Sees(seen, q.values)
    ensures r == Inline(q, inner, 1) && Sees(known, r.values)
  {
    r, known := q, seen;
    for k := 1 to |inner.parts|
      invariant Shaped(r) && Sees(known, r.values) && Inline(r, inner, k) == Inline(q, inner, 1)
    {
      var params, slot;
      known, params, slot := SlotFor(known, r.values, inner.values[inner.slots[k - 1]]);
      r := Query(r.parts + [inner.parts[k]], r.slots + [slot], params);
    }
  }

  /** One interpolation. */
  method StepInto(q: Query, seen: map<Value, nat>, arg: Arg, after: string, jsonb: bool)
    returns (r: Query, known: map<Value, nat>)
    requires Shaped(q) && Sees(seen, q.values) && (arg.Inlined? ==> Shaped(arg.query))
    ensures r == Step(q, arg, after, jsonb) && Sees(known, r.values)
  {
    var last := |q.parts| - 1;
    match arg {
      case Inlined(inner) =>
        var t := q.(parts := q.parts[last := Glue(q.parts[last], inner.parts[0])]);
        t, known := InlineInto(t, seen, inner);
        var end := |t.parts| - 1;
        r := t.(parts := t.parts[end := Glue(t.parts[end], after)]);
      case Given(v) =>
        var params, slot;
        known, params, slot := SlotFor(seen, q.values, v);
        var parts := q.parts;
        if jsonb && v.Object? && v.json {
          parts := parts[last := parts[last] + JSONB_OPEN] + [")" + after];
        } else {
          parts := parts + [after];
        }
        r := Query(parts, q.slots + [slot], params);
    }
  }

  /** The loop over the interpolations. */
  method FoldArgs(strings: seq<Option<string>>, args: seq<Arg>, jsonb: bool) returns (q: Query)
    requires |strings| == |args| + 1 && ArgsShaped(args) && Cooked(strings)
    ensures q == Folded(strings, args, jsonb)
  {
    var seen := map[];
    q := Query([strings[0].value], [], []);
    for i := 0 to |args|
      invariant Sees(seen, q.values) && q == Folded(strings[..i + 1], args[..i], jsonb)
    {
      FoldedNext(strings, args, jsonb, i);
      q, seen := StepInto(q, seen, args[i], strings[i + 1].value, jsonb);
    }
    assert strings[..|args| + 1] == strings && args[..|args|] == args;
  }

  lemma FoldedNext(strings: seq<Option<string>>, args: seq<Arg>, jsonb: bool, i: nat)
    requires |strings| == |args| + 1 && ArgsShaped(args) && Cooked(strings) && i < |args|
    ensures ArgsShaped(args[..i + 1]) && ArgsShaped(args[..i])
    ensures Folded(strings[..i + 2], args[..i + 1], jsonb) ==
            Step(Folded(strings[..i + 1], args[..i], jsonb), args[i], strings[i + 1].value, jsonb)
  {
    assert strings[..i + 2][..i + 1] == strings[..i + 1] && args[..i + 1][..i] == args[..i];
  }

  method Build(strings: seq<Option<string>>, args: seq<Arg>, jsonb: bool) returns (r: Option<Query>)
    requires |strings| == |args| + 1 && ArgsShaped(args)
    ensures r == Built(strings, args, jsonb)
  {
    var verdict := TemplateError(strings);
    if verdict == Refused { return None; }
    var q := FoldArgs(strings, args, jsonb);
    var end := |q.parts| - 1;
    if verdict.inLineComment { q := q.(parts := q.parts[end := q.parts[end] + "\n"]); }
    r := Some(q);
  }
}
