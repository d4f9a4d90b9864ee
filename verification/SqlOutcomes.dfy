/**
  * What a built query says, character by character: the templates' own text and the
  * values, in the order they are written, and nothing else but what keeps texts
  * apart. And what is refused, at any depth.
  */
module SqlOutcomes {
  import opened Basics
  import opened SqlText
  import opened SqlTemplate
  import opened SqlFragments

  /** A query as it reads: characters, and values where placeholders stand. */
  datatype Sign = Letter(c: char) | Place(value: Value)

  function Letters(t: string): (r: seq<Sign>)
    ensures |r| == |t| && forall i | 0 <= i < |r| :: r[i] == Letter(t[i])
  {
    seq(|t|, i requires 0 <= i < |t| => Letter(t[i]))
  }

  lemma LettersJoin(a: string, b: string)
    ensures Letters(a + b) == Letters(a) + Letters(b)
  {
  }

  /** The first `n` parts of a query, with the values between them. */
  function FlowTo(q: Query, n: nat): seq<Sign>
    requires Shaped(q) && 0 < n <= |q.parts|
  {
    if n == 1 then Letters(q.parts[0])
    else FlowTo(q, n - 1) + [Place(q.values[q.slots[n - 2]])] + Letters(q.parts[n - 1])
  }

  function Flow(q: Query): seq<Sign>
    requires Shaped(q)
  {
    FlowTo(q, |q.parts|)
  }

  /** Two readings one after the other, a space between them where they would open a comment. */
  function Joined(a: seq<Sign>, b: seq<Sign>): seq<Sign> { a + Apart(a, b) + b }

  function Apart(a: seq<Sign>, b: seq<Sign>): seq<Sign>
  {
    if a != [] && b != [] && Fusing(a[|a| - 1], b[0]) then [Letter(' ')] else []
  }

  predicate Fusing(x: Sign, y: Sign)
  {
    (x == Letter('-') && y == Letter('-')) || (x == Letter('/') && y == Letter('*'))
  }

  /** How a value reads in a template: as itself, or as JSON made binary. */
  function Shown(v: Value, jsonb: bool): seq<Sign>
  {
    if jsonb && v.Object? && v.json then Letters("jsonb(") + [Place(v)] + Letters(")") else [Place(v)]
  }

  /** How a template reads: its own text, its values, and the queries inlined. */
  function Reading(strings: seq<Option<string>>, args: seq<Arg>, jsonb: bool): seq<Sign>
    requires |strings| == |args| + 1 && Cooked(strings) && ArgsShaped(args)
    decreases |args|
  {
    var n := |args|;
    if n == 0 then Letters(strings[0].value)
    else ReadNext(Reading(strings[..n], args[..n - 1], jsonb), args[n - 1], Letters(strings[n].value), jsonb)
  }

  function ReadNext(before: seq<Sign>, arg: Arg, after: seq<Sign>, jsonb: bool): seq<Sign>
    requires arg.Inlined? ==> Shaped(arg.query)
  {
    match arg
    case Given(v) => before + Shown(v, jsonb) + after
    case Inlined(q) => Joined(Joined(before, Flow(q)), after)
  }

  // ------------------------------------------------------------------------- the flow

  lemma {:induction false} SamePartsSameFlow(q: Query, r: Query, n: nat)
    requires Shaped(q) && Shaped(r) && 0 < n <= |q.parts| && n <= |r.parts|
    requires forall k | 0 <= k < n :: q.parts[k] == r.parts[k]
    requires forall k | 0 <= k < n - 1 :: q.values[q.slots[k]] == r.values[r.slots[k]]
    ensures FlowTo(q, n) == FlowTo(r, n)
  {
    if n > 1 { SamePartsSameFlow(q, r, n - 1); }
  }

  lemma BoundAt(q: Query, r: Query, n: nat)
    requires Shaped(q) && Shaped(r) && n <= |q.slots| && n <= |r.slots|
    requires Bound(q)[..n] == Bound(r)[..n]
    ensures forall k | 0 <= k < n :: q.values[q.slots[k]] == r.values[r.slots[k]]
  {
    forall k | 0 <= k < n
      ensures q.values[q.slots[k]] == r.values[r.slots[k]]
    {
      assert Bound(q)[k] == Bound(q)[..n][k] && Bound(r)[k] == Bound(r)[..n][k];
    }
  }

  /** One more placeholder and part. */
  lemma PushFlows(q: Query, v: Value, part: string)
    requires Shaped(q)
    ensures Flow(Push(q, v, part)) == Flow(q) + [Place(v)] + Letters(part)
  {
    var r, n := Push(q, v, part), |q.parts|;
    assert Bound(r)[..n - 1] == Bound(q)[..n - 1];
    BoundAt(q, r, n - 1);
    SamePartsSameFlow(q, r, n);
    assert Bound(r)[n - 1] == v;
  }

  /** More text behind the last part. */
  lemma MoreText(q: Query, more: string)
    requires Shaped(q)
    ensures Flow(SetLast(q, LastPart(q) + more)) == Flow(q) + Letters(more)
  {
    var r, n := SetLast(q, LastPart(q) + more), |q.parts|;
    LettersJoin(LastPart(q), more);
    if n > 1 { SamePartsSameFlow(q, r, n - 1); }
  }

  /** How a query's reading ends: with its last part's last character, or a placeholder, or not at all. */
  lemma FlowEnds(q: Query)
    requires Shaped(q)
    ensures var t, f := LastPart(q), Flow(q);
            if t != "" then f != [] && f[|f| - 1] == Letter(t[|t| - 1])
            else f == [] || f[|f| - 1].Place?
  {
    var n := |q.parts|;
    assert Letters(LastPart(q)) == [] ==> LastPart(q) == "";
  }

  /** How it begins. */
  lemma {:induction false} FlowBegins(q: Query, n: nat)
    requires Shaped(q) && 0 < n <= |q.parts|
    ensures var t, f := q.parts[0], FlowTo(q, n);
            if t != "" then f != [] && f[0] == Letter(t[0]) else f == [] || f[0].Place?
  {
    if n > 1 { FlowBegins(q, n - 1); }
  }

  /** Glued text reads as the two, kept apart exactly where they would fuse. */
  lemma GlueFlows(q: Query, t: string)
    requires Shaped(q)
    ensures Flow(SetLast(q, Glue(LastPart(q), t))) == Joined(Flow(q), Letters(t))
  {
    FlowEnds(q);
    if Fuses(LastPart(q), t) {
      assert LastPart(q) + " " + t == LastPart(q) + (" " + t);
      MoreText(q, " " + t);
      LettersJoin(" ", t);
      assert Letters(" ") == [Letter(' ')];
      assert Flow(q) + ([Letter(' ')] + Letters(t)) == Flow(q) + [Letter(' ')] + Letters(t);
    } else {
      MoreText(q, t);
      assert Flow(q) + [] + Letters(t) == Flow(q) + Letters(t);
    }
  }

  lemma {:induction false} InlineFlows(q: Query, inner: Query, k: nat, before: seq<Sign>)
    requires Shaped(q) && Shaped(inner) && 0 < k <= |inner.parts| && Flow(q) == before + FlowTo(inner, k)
    ensures Flow(Inline(q, inner, k)) == before + Flow(inner)
    decreases |inner.parts| - k
  {
    if k < |inner.parts| {
      var v := Bound(inner)[k - 1];
      PushFlows(q, v, inner.parts[k]);
      assert before + FlowTo(inner, k) + [Place(v)] + Letters(inner.parts[k]) == before + FlowTo(inner, k + 1);
      InlineFlows(Push(q, v, inner.parts[k]), inner, k + 1, before);
    }
  }

  /** Whether an inlined query has to be kept apart shows in its first part. */
  lemma ApartShows(a: seq<Sign>, inner: Query)
    requires Shaped(inner)
    ensures Apart(a, Letters(inner.parts[0])) == Apart(a, Flow(inner))
  {
    FlowBegins(inner, |inner.parts|);
  }

  lemma InlinedFlows(q: Query, inner: Query, after: string, jsonb: bool)
    requires Shaped(q) && Shaped(inner)
    ensures Flow(Step(q, Inlined(inner), after, jsonb)) == Joined(Joined(Flow(q), Flow(inner)), Letters(after))
  {
    var t0 := SetLast(q, Glue(LastPart(q), inner.parts[0]));
    GlueFlows(q, inner.parts[0]);
    ApartShows(Flow(q), inner);
    InlineFlows(t0, inner, 1, Flow(q) + Apart(Flow(q), Flow(inner)));
    GlueFlows(Inline(t0, inner, 1), after);
  }

  lemma GivenFlows(q: Query, v: Value, after: string, jsonb: bool)
    requires Shaped(q)
    ensures Flow(Step(q, Given(v), after, jsonb)) == Flow(q) + Shown(v, jsonb) + Letters(after)
  {
    if jsonb && v.Object? && v.json {
      MoreText(q, "jsonb(");
      var t := SetLast(q, LastPart(q) + "jsonb(");
      PushFlows(t, v, ")" + after);
      LettersJoin(")", after);
      assert Flow(q) + Letters("jsonb(") + [Place(v)] + (Letters(")") + Letters(after)) ==
             Flow(q) + Shown(v, jsonb) + Letters(after);
    } else {
      PushFlows(q, v, after);
    }
  }

  lemma StepFlows(q: Query, arg: Arg, after: string, jsonb: bool)
    requires Shaped(q) && (arg.Inlined? ==> Shaped(arg.query))
    ensures Flow(Step(q, arg, after, jsonb)) == ReadNext(Flow(q), arg, Letters(after), jsonb)
  {
    match arg
    case Given(v) => GivenFlows(q, v, after, jsonb);
    case Inlined(inner) => InlinedFlows(q, inner, after, jsonb);
  }

  lemma {:induction false} FoldedFlows(strings: seq<Option<string>>, args: seq<Arg>, jsonb: bool)
    requires |strings| == |args| + 1 && Cooked(strings) && ArgsShaped(args)
    ensures Flow(Folded(strings, args, jsonb)) == Reading(strings, args, jsonb)
    decreases |args|
  {
    var n := |args|;
    if n == 0 {
      assert Folded(strings, args, jsonb) == Query([strings[0].value], [], []);
    } else {
      var q := Folded(strings[..n], args[..n - 1], jsonb);
      FoldedFlows(strings[..n], args[..n - 1], jsonb);
      StepFlows(q, args[n - 1], strings[n].value, jsonb);
      assert Folded(strings, args, jsonb) == Step(q, args[n - 1], strings[n].value, jsonb);
    }
  }

  /** A built template reads as it is written, a line end added when it ends in a line comment. */
  lemma BuiltReads(strings: seq<Option<string>>, args: seq<Arg>, jsonb: bool)
    requires |strings| == |args| + 1 && ArgsShaped(args) && Usable(strings)
    ensures Built(strings, args, jsonb).Some?
    ensures Flow(Built(strings, args, jsonb).value) ==
            Reading(strings, args, jsonb)
            + if Scan(Outside, strings[|args|].value) == Line then [Letter('\n')] else []
  {
    FoldedFlows(strings, args, jsonb);
    var q := Folded(strings, args, jsonb);
    if Scan(Outside, strings[|args|].value) == Line {
      MoreText(q, "\n");
      assert Letters("\n") == [Letter('\n')];
    }
  }

  /** Without anything inlined, the parts are the template's own strings. */
  lemma {:induction false} PlainTemplateParts(strings: seq<Option<string>>, args: seq<Arg>)
    requires |strings| == |args| + 1 && Cooked(strings) && ArgsShaped(args) && forall i | 0 <= i < |args| :: args[i].Given?
    ensures var q := Folded(strings, args, false);
            |q.parts| == |strings| && forall k | 0 <= k < |strings| :: q.parts[k] == strings[k].value
    decreases |args|
  {
    var n := |args|;
    if n > 0 { PlainTemplateParts(strings[..n], args[..n - 1]); }
  }

  // -------------------------------------------------------------------- the rendered text

  lemma {:induction false} TailSnoc(parts: seq<string>, slots: seq<nat>, part: string, slot: nat, k: nat)
    requires |parts| == |slots| + 1 && 0 < k <= |parts|
    ensures Tail(parts + [part], slots + [slot], k) == Tail(parts, slots, k) + ("?" + Decimal(slot + 1) + (Separator(part) + part))
    decreases |parts| - k
  {
    var last := "?" + Decimal(slot + 1) + (Separator(part) + part);
    var more, places := parts + [part], slots + [slot];
    if k == |parts| {
      assert Tail(more, places, k + 1) == "";
      assert Separator(part) + part + "" == Separator(part) + part;
      assert "" + last == last;
    } else {
      TailSnoc(parts, slots, part, slot, k + 1);
      assert more[k] == parts[k] && places[k - 1] == slots[k - 1];
      BehindMore(slots[k - 1] + 1, parts[k], Tail(parts, slots, k + 1), last);
    }
  }

  lemma BehindMore(n: nat, part: string, rest: string, last: string)
    ensures Behind(n, part, rest + last) == Behind(n, part, rest) + last
  {
    var mark, front := "?" + Decimal(n), Separator(part) + part;
    assert front + (rest + last) == (front + rest) + last;
    assert mark + ((front + rest) + last) == (mark + (front + rest)) + last;
  }

  /** The text of one part is that part; one more placeholder adds its number, then the part behind it, a digit kept off. */
  lemma RenderedGrows(parts: seq<string>, slots: seq<nat>, part: string, slot: nat)
    requires |parts| == |slots| + 1
    ensures Rendered([part], []) == part
    ensures Rendered(parts + [part], slots + [slot]) ==
            Rendered(parts, slots) + ("?" + Decimal(slot + 1) + ((if part != "" && '0' <= part[0] <= '9' then " " else "") + part))
  {
    assert Tail([part], [], 1) == "" && part + "" == part;
    TailSnoc(parts, slots, part, slot, 1);
    var last := "?" + Decimal(slot + 1) + (Separator(part) + part);
    assert parts[0] + (Tail(parts, slots, 1) + last) == parts[0] + Tail(parts, slots, 1) + last;
    assert (parts + [part])[0] == parts[0];
  }

  // ------------------------------------------------------------------------ acceptance

  predicate NameOk(name: string) { name != "" && '\0' !in name }

  /** What builds: names that can be quoted, and templates that can be used, at every depth. */
  predicate Acceptable(f: Fragment)
    decreases f, 0
  {
    match f
    case Id(names) => names != [] && forall i | 0 <= i < |names| :: NameOk(names[i])
    case List(_) => true
    case Template(strings, pieces, _) => |strings| == |pieces| + 1 && Usable(strings) && PiecesOk(pieces)
  }

  predicate PiecesOk(pieces: seq<Piece>)
    decreases pieces, 1
  {
    pieces == [] || (PiecesOk(pieces[..|pieces| - 1]) && PieceOk(pieces[|pieces| - 1]))
  }

  predicate PieceOk(piece: Piece)
    decreases piece, 0
  {
    match piece
    case Val(_) => true
    case Sub(f) => Acceptable(f)
  }

  lemma {:induction false} NamesQuotedIff(names: seq<string>)
    ensures QuotedNames(names).Some? <==> names != [] && forall i | 0 <= i < |names| :: NameOk(names[i])
  {
    if |names| > 1 {
      NamesQuotedIff(names[1..]);
      assert forall i | 1 <= i < |names| :: names[i] == names[1..][i - 1];
    }
  }

  /** A fragment builds if and only if it is acceptable, and so is all it inlines. */
  lemma {:induction false} BuildsIff(f: Fragment)
    ensures QueryOf(f).Some? <==> Acceptable(f)
    decreases f, 0
  {
    match f
    case Id(names) => NamesQuotedIff(names);
    case List(marker) =>
    case Template(strings, pieces, jsonb) =>
      PiecesBuildIff(pieces);
      PiecesCompose(pieces);
      if ArgsOf(pieces).Some? && |strings| == |pieces| + 1 { BuiltComposes(strings, ArgsOf(pieces).value, jsonb); }
  }

  lemma {:induction false} PiecesBuildIff(pieces: seq<Piece>)
    ensures ArgsOf(pieces).Some? <==> PiecesOk(pieces)
    decreases pieces, 1
  {
    if pieces != [] {
      PiecesBuildIff(pieces[..|pieces| - 1]);
      PieceBuildsIff(pieces[|pieces| - 1]);
    }
  }

  lemma {:induction false} PieceBuildsIff(piece: Piece)
    ensures ArgOf(piece).Some? <==> PieceOk(piece)
    decreases piece, 0
  {
    if piece.Sub? { BuildsIff(piece.fragment); }
  }

  // ------------------------------------------------------------------- literals, comments

  /** A character that opens a literal or a quoted name, and the one that closes it. */
  predicate Opens(open: char, end: char)
  {
    (open == end && (open == '\'' || open == '"' || open == '`')) || (open == '[' && end == ']')
  }

  lemma {:induction false} InsideStays(close: Close, t: string)
    requires close.Quoted? ==> close.end !in t
    requires close.Line? ==> '\n' !in t
    requires close == Block ==> forall i | 0 <= i < |t| - 1 :: !(t[i] == '*' && t[i + 1] == '/')
    requires close != Outside
    ensures Scan(close, t) == close && Marks(close, t) == []
    decreases |t|
  {
    if t != "" {
      assert t[0] in t && forall c | c in t[1..] :: c in t;
      assert forall i | 0 <= i < |t| - 1 :: t[1..][i] == t[i + 1];
      assert close == Block ==> !StartsPair(t, '*', '/');
      InsideStays(close, t[1..]);
    }
  }

  /** A literal or a quoted name swallows all up to its end, placeholders and comments included. */
  lemma LiteralScans(open: char, end: char, body: string)
    requires Opens(open, end) && end !in body
    ensures Scan(Outside, [open] + body) == Quoted(end) && Marks(Outside, [open] + body) == []
    ensures ClosedText([open] + body + [end])
  {
    InsideStays(Quoted(end), body);
    assert ([open] + body)[1..] == body;
    assert !Fuses([open] + body, [end]);
    ScanJoin(Outside, [open] + body, [end]);
    MarksJoin(Outside, [open] + body, [end]);
    assert [end][1..] == "";
  }

  /** A line comment swallows all up to the line end. */
  lemma LineCommentScans(body: string)
    requires '\n' !in body
    ensures Scan(Outside, "--" + body) == Line && Marks(Outside, "--" + body) == []
    ensures ClosedText("--" + body + "\n")
  {
    InsideStays(Line, body);
    var t := "--" + body;
    assert t[2..] == body && StartsPair(t, '-', '-');
    LineEnded(t);
  }

  /** A block comment never closed is open at the end. */
  lemma BlockCommentScans(body: string)
    requires forall i | 0 <= i < |body| - 1 :: !(body[i] == '*' && body[i + 1] == '/')
    ensures Scan(Outside, "/*" + body) == Block && Marks(Outside, "/*" + body) == []
  {
    InsideStays(Block, body);
    var t := "/*" + body;
    assert t[2..] == body;
    assert Next(Outside, t) == (Block, 2);
  }

  lemma BlockCommentCloses(rest: string)
    ensures Scan(Block, "*/" + rest) == Scan(Outside, rest) && Marks(Block, "*/" + rest) == Marks(Outside, rest)
  {
    var t := "*/" + rest;
    assert t[2..] == rest;
    assert Next(Block, t) == (Outside, 2);
  }
}
