/**
  * What the `sql` tag promises of queries built from fragments of fragments, and
  * the building itself, step by step.
  */
module SqlFragments {
  import opened Basics
  import opened SqlText
  import opened SqlTemplate

  // -------------------------------------------------------------- quoted names

  function Doubled(name: string): string
  {
    if name == "" then "" else Escaped(name[0]) + Doubled(name[1..])
  }

  function QuoteIdent(name: string): Option<string>
  {
    if name == "" || '\0' in name then None else Some("\"" + Doubled(name) + "\"")
  }

  /** The name a quoted identifier denotes, read from behind its opening quote, and the text after it. */
  function ReadName(t: string): Option<(string, string)>
  {
    if t == "" then None
    else if t[0] != '"' then
      var r := ReadName(t[1..]);
      if r == None then None else Some(([t[0]] + r.value.0, r.value.1))
    else if |t| > 1 && t[1] == '"' then
      var r := ReadName(t[2..]);
      if r == None then None else Some(("\"" + r.value.0, r.value.1))
    else Some(("", t[1..]))
  }

  function Escaped(c: char): string { if c == '"' then "\"\"" else [c] }

  /** What holds of the end, and is kept by one more character in front, holds of the whole name in front of it. */
  lemma {:induction false} DoubledInduction(holds: (string, string) -> bool, name: string, end: string)
    requires holds("", end)
    requires forall c: char, n: string, t: string {:trigger [c] + n, Escaped(c) + t} | holds(n, t) :: holds([c] + n, Escaped(c) + t)
    ensures holds(name, Doubled(name) + end)
  {
    if name == "" {
      assert Doubled(name) + end == end;
    } else {
      DoubledInduction(holds, name[1..], end);
      var c, n, t := name[0], name[1..], Doubled(name[1..]) + end;
      assert holds([c] + n, Escaped(c) + t);
      assert [c] + n == name && Escaped(c) + t == Doubled(name) + end;
    }
  }

  lemma DoubledReads(name: string, rest: string)
    requires rest != "" ==> rest[0] != '"'
    ensures ReadName(Doubled(name) + ("\"" + rest)) == Some((name, rest))
    ensures Scan(Quoted('"'), Doubled(name) + ("\"" + rest)) == Scan(Outside, rest)
    ensures Marks(Quoted('"'), Doubled(name) + ("\"" + rest)) == Marks(Outside, rest)
  {
    var holds := (n: string, t: string) =>
      && ReadName(t) == Some((n, rest))
      && Scan(Quoted('"'), t) == Scan(Outside, rest) && Marks(Quoted('"'), t) == Marks(Outside, rest);
    EndReads(rest);
    forall c: char, n: string, t: string | holds(n, t)
      ensures holds([c] + n, Escaped(c) + t)
    {
      if c == '"' { DoubleReads(t); } else { CharReads(c, t); }
    }
    DoubledInduction(holds, name, "\"" + rest);
  }

  lemma EndReads(rest: string)
    requires rest != "" ==> rest[0] != '"'
    ensures var t := "\"" + rest;
            && ReadName(t) == Some(("", rest))
            && Scan(Quoted('"'), t) == Scan(Outside, rest) && Marks(Quoted('"'), t) == Marks(Outside, rest)
  {
    var t := "\"" + rest;
    assert t[1..] == rest;
    assert Next(Quoted('"'), t) == (Outside, 1);
  }

  lemma DoubleReads(more: string)
    ensures var t := "\"\"" + more;
            && Scan(Quoted('"'), t) == Scan(Quoted('"'), more) && Marks(Quoted('"'), t) == Marks(Quoted('"'), more)
            && (ReadName(more).Some? ==> ReadName(t) == Some(("\"" + ReadName(more).value.0, ReadName(more).value.1)))
  {
    var t := "\"\"" + more;
    assert t[2..] == more && t[1..][1..] == more && t[1..][0] == '"';
    assert Next(Quoted('"'), t) == (Outside, 1);
    assert Next(Outside, t[1..]) == (Quoted('"'), 1);
  }

  lemma CharReads(c: char, more: string)
    requires c != '"'
    ensures var t := [c] + more;
            && Scan(Quoted('"'), t) == Scan(Quoted('"'), more) && Marks(Quoted('"'), t) == Marks(Quoted('"'), more)
            && (ReadName(more).Some? ==> ReadName(t) == Some(([c] + ReadName(more).value.0, ReadName(more).value.1)))
  {
    var t := [c] + more;
    assert t[1..] == more;
    assert Next(Quoted('"'), t) == (Quoted('"'), 1);
  }

  lemma QuoteOpens(t: string)
    ensures Scan(Outside, "\"" + t) == Scan(Quoted('"'), t) && Marks(Outside, "\"" + t) == Marks(Quoted('"'), t)
  {
    var all := "\"" + t;
    assert all[1..] == t;
    assert Next(Outside, all) == (Quoted('"'), 1);
  }

  /** A quoted name is read back as that name, whatever it holds, and nothing of it opens or marks anything. */
  lemma QuotedReadsBack(name: string, rest: string)
    requires QuoteIdent(name).Some? && (rest != "" ==> rest[0] != '"')
    ensures var t := QuoteIdent(name).value + rest;
            && t[0] == '"' && ReadName(t[1..]) == Some((name, rest))
            && Scan(Outside, t) == Scan(Outside, rest) && Marks(Outside, t) == Marks(Outside, rest)
  {
    DoubledReads(name, rest);
    QuoteOpens(Doubled(name) + ("\"" + rest));
    QuotedText(name, rest);
  }

  lemma QuotedText(name: string, rest: string)
    requires QuoteIdent(name).Some?
    ensures var t, inner := QuoteIdent(name).value + rest, Doubled(name) + ("\"" + rest);
            t == "\"" + inner && t[1..] == inner && t[0] == '"'
  {
  }

  // ------------------------------------------------------------------ fragments

  datatype Piece = Val(value: Value) | Sub(fragment: Fragment)

  /** How a query is written: `sql.id`, `sql.list` (`marker` is its array's own marker), `sql` or `sql.jsonb`. */
  datatype Fragment =
    | Id(names: seq<string>)
    | List(marker: nat)
    | Template(strings: seq<Option<string>>, pieces: seq<Piece>, jsonb: bool)

  /** The names quoted and joined; None when there is none, or one cannot be quoted. */
  function QuotedNames(names: seq<string>): Option<string>
  {
    if names == [] then None
    else
      var first := QuoteIdent(names[0]);
      if first == None then None
      else if |names| == 1 then first
      else
        var more := QuotedNames(names[1..]);
        if more == None then None else Some(first.value + ("." + more.value))
  }

  const LIST_OPEN := "(SELECT value FROM json_each("
  const LIST_CLOSE := "))"

  /** The query a fragment builds, innermost first; None when any of it is refused. */
  function QueryOf(f: Fragment): Option<Query>
    decreases f, 0
  {
    match f
    case Id(names) => var t := QuotedNames(names); if t == None then None else Some(Query([t.value], [], []))
    case List(marker) => Some(Query([LIST_OPEN, LIST_CLOSE], [0], [Object(marker, false)]))
    case Template(strings, pieces, jsonb) =>
      if |strings| != |pieces| + 1 then None
      else
        assert f.Template?;
        var args := ArgsOf(f.pieces);
        if args == None || !ArgsShaped(args.value) then None else Built(strings, args.value, jsonb)
  }

  function ArgsOf(pieces: seq<Piece>): (r: Option<seq<Arg>>)
    ensures r.Some? ==> |r.value| == |pieces|
    decreases pieces, 1
  {
    if pieces == [] then Some([])
    else
      var before, last := ArgsOf(pieces[..|pieces| - 1]), ArgOf(pieces[|pieces| - 1]);
      if before == None || last == None then None else Some(before.value + [last.value])
  }

  function ArgOf(piece: Piece): Option<Arg>
    decreases piece, 0
  {
    match piece
    case Val(v) => Some(Given(v))
    case Sub(f) => var q := QueryOf(f); if q == None then None else Some(Inlined(q.value))
  }

  /** Every value interpolated, at any depth, in the order it is written. */
  function Leaves(f: Fragment): seq<Value>
    decreases f, 0
  {
    match f
    case Id(_) => []
    case List(marker) => [Object(marker, false)]
    case Template(_, pieces, _) => LeavesOf(pieces)
  }

  function LeavesOf(pieces: seq<Piece>): seq<Value>
    decreases pieces, 1
  {
    if pieces == [] then [] else LeavesOf(pieces[..|pieces| - 1]) + LeavesIn(pieces[|pieces| - 1])
  }

  function LeavesIn(piece: Piece): seq<Value>
    decreases piece, 0
  {
    match piece
    case Val(v) => [v]
    case Sub(f) => Leaves(f)
  }

  lemma {:induction false} NamesClosed(names: seq<string>)
    requires QuotedNames(names).Some?
    ensures ClosedText(QuotedNames(names).value)
    ensures QuotedNames(names).value != "" && QuotedNames(names).value[0] == '"'
    decreases |names|
  {
    var first := QuoteIdent(names[0]).value;
    QuotedReadsBack(names[0], "");
    assert first + "" == first;
    if |names| > 1 {
      NamesClosed(names[1..]);
      var more := QuotedNames(names[1..]).value;
      DotThen(more);
      ClosedThen(first, "." + more);
    }
  }

  lemma {:induction false} DotThen(more: string)
    requires ClosedText(more) && more != "" && more[0] == '"'
    ensures ClosedText("." + more)
  {
    PlainIsOutside(".");
    ClosedThen(".", more);
  }

  lemma ListClosed(marker: nat)
    ensures AllClosed(Query([LIST_OPEN, LIST_CLOSE], [0], [Object(marker, false)]))
  {
    PlainQuery(LIST_OPEN, LIST_CLOSE, Object(marker, false));
  }

  lemma PlainQuery(open: string, close: string, v: Value)
    requires SqlText.Plain(open) && SqlText.Plain(close)
    ensures AllClosed(Query([open, close], [0], [v]))
  {
    PlainIsOutside(open);
    PlainIsOutside(close);
  }

  predicate ArgsClosed(args: seq<Arg>)
  {
    forall i | 0 <= i < |args| && args[i].Inlined? :: AllClosed(args[i].query)
  }

  /** Whatever the depth: a query closed, binding exactly the leaves. */
  lemma {:induction false} FragmentComposes(f: Fragment)
    ensures QueryOf(f).Some? ==> AllClosed(QueryOf(f).value) && Bound(QueryOf(f).value) == Leaves(f)
    decreases f, 0
  {
    match f
    case Id(names) => if QuotedNames(names).Some? { NamesClosed(names); }
    case List(marker) => ListClosed(marker);
    case Template(strings, pieces, jsonb) =>
      PiecesCompose(pieces);
      var args := ArgsOf(pieces);
      if args.Some? && |strings| == |pieces| + 1 { BuiltComposes(strings, args.value, jsonb); }
  }

  lemma {:induction false} PiecesCompose(pieces: seq<Piece>)
    ensures ArgsOf(pieces).Some? ==>
              var args := ArgsOf(pieces).value;
              ArgsClosed(args) && ArgsShaped(args) && ValuesOf(args) == LeavesOf(pieces)
    decreases pieces, 1
  {
    if pieces != [] {
      var front, last := pieces[..|pieces| - 1], pieces[|pieces| - 1];
      PieceComposes(last);
      PiecesCompose(front);
      if ArgsOf(pieces).Some? { ArgsSnoc(ArgsOf(front).value, ArgOf(last).value); }
    }
  }

  lemma {:induction false} ArgsSnoc(args: seq<Arg>, arg: Arg)
    requires ArgsClosed(args) && ArgsShaped(args) && (arg.Inlined? ==> AllClosed(arg.query))
    ensures ArgsClosed(args + [arg]) && ArgsShaped(args + [arg])
    ensures ValuesOf(args + [arg]) == ValuesOf(args) + Values(arg)
  {
    assert (args + [arg])[..|args|] == args;
  }

  lemma {:induction false} PieceComposes(piece: Piece)
    ensures ArgOf(piece).Some? ==>
              var arg := ArgOf(piece).value;
              (arg.Inlined? ==> AllClosed(arg.query)) && Values(arg) == LeavesIn(piece)
    decreases piece, 0
  {
    if piece.Sub? { FragmentComposes(piece.fragment); }
  }

  /**
    * Any query built by `sql`, `sql.id` and `sql.list`, inlined at any depth: its
    * text ends outside every literal and comment, its placeholders are outside
    * them all and stand for its slots in order, and the value bound at the k-th
    * placeholder is the k-th value written.
    */
  lemma TemplateComposition(f: Fragment, q: Query)
    requires QueryOf(f) == Some(q)
    ensures Closed(q)
    ensures var text := Rendered(q.parts, q.slots);
            Scan(Outside, text) == Outside && Marks(Outside, text) == Numbers(q.slots)
    ensures |q.slots| == |Leaves(f)| && forall k | 0 <= k < |q.slots| :: q.values[q.slots[k]] == Leaves(f)[k]
    ensures OneParamEach(q.values)
  {
    FragmentComposes(f);
    AllClosedIsClosed(q);
    RenderedReadsBack(q);
  }
}
