/**
  * SQL text as the template builder sees it: which characters are inside a
  * literal, a quoted name or a comment, and where placeholders stand.
  */
module SqlText {
  import opened Basics

  /** What the scan waits for; `Outside` is outside every literal and comment. */
  datatype Close = Outside | Quoted(end: char) | Line | Block

  predicate StartsPair(t: string, a: char, b: char) { |t| >= 2 && t[0] == a && t[1] == b }

  /** The state after the next token, and how many characters it takes. */
  function Next(c: Close, t: string): (r: (Close, nat))
    requires t != ""
    ensures 1 <= r.1 <= 2 && r.1 <= |t|
  {
    match c
    case Outside =>
      if t[0] == '\'' || t[0] == '"' || t[0] == '`' then (Quoted(t[0]), 1)
      else if t[0] == '[' then (Quoted(']'), 1)
      else if StartsPair(t, '-', '-') then (Line, 2)
      else if StartsPair(t, '/', '*') then (Block, 2)
      else (Outside, 1)
    case Quoted(end) => (if t[0] == end then Outside else c, 1)
    case Line => (if t[0] == '\n' then Outside else c, 1)
    case Block => if StartsPair(t, '*', '/') then (Outside, 2) else (Block, 1)
  }

  function Scan(c: Close, t: string): Close
    decreases |t|
  {
    if t == "" then c else Scan(Next(c, t).0, t[Next(c, t).1..])
  }

  /** Joined, the two would open a comment neither opens alone. */
  predicate Fuses(a: string, b: string)
  {
    && a != "" && b != ""
    && ((a[|a| - 1] == '-' && b[0] == '-') || (a[|a| - 1] == '/' && b[0] == '*'))
  }

  function DigitRun(t: string): (n: nat)
    ensures n <= |t| && (forall i | 0 <= i < n :: IsDigit(t[i])) && (n < |t| ==> !IsDigit(t[n]))
  {
    if t == "" || !IsDigit(t[0]) then 0 else 1 + DigitRun(t[1..])
  }

  /** The numbers of the `?N` placeholders outside every literal and comment, in order; a bare `?` is 0. */
  function Marks(c: Close, t: string): seq<nat>
    decreases |t|
  {
    if t == "" then []
    else if c == Outside && t[0] == '?' then
      var d := DigitRun(t[1..]);
      [ToNat(t[1..][..d])] + Marks(Outside, t[1..][d..])
    else Marks(Next(c, t).0, t[Next(c, t).1..])
  }

  // ---------------------------------------------------------------------- joining

  lemma NextOfJoin(c: Close, a: string, b: string)
    requires a != "" && !Fuses(a, b) && (c == Block ==> Scan(c, a) != Block)
    ensures Next(c, a + b) == Next(c, a)
  {
    var t := a + b;
    assert t[0] == a[0];
    if |a| == 1 {
      assert c == Block ==> Scan(c, a) == Block;
    } else {
      assert t[1] == a[1];
    }
  }

  /** What two texts scan to, joined where they do not fuse and no block comment is open. */
  lemma {:induction false} ScanJoin(c: Close, a: string, b: string)
    requires !Fuses(a, b) && Scan(c, a) != Block
    ensures Scan(c, a + b) == Scan(Scan(c, a), b)
    decreases |a|
  {
    if a == "" {
      assert a + b == b;
    } else {
      NextOfJoin(c, a, b);
      var (d, n) := Next(c, a);
      assert (a + b)[n..] == a[n..] + b;
      assert a[n..] != "" ==> a[n..][|a[n..]| - 1] == a[|a| - 1];
      ScanJoin(d, a[n..], b);
    }
  }

  lemma {:induction false} MarksJoin(c: Close, a: string, b: string)
    requires !Fuses(a, b) && Scan(c, a) != Block && Marks(c, a) == []
    ensures Marks(c, a + b) == Marks(Scan(c, a), b)
    decreases |a|
  {
    if a == "" {
      assert a + b == b;
    } else {
      NextOfJoin(c, a, b);
      var (d, n) := Next(c, a);
      assert (a + b)[0] == a[0];
      assert (a + b)[n..] == a[n..] + b;
      assert a[n..] != "" ==> a[n..][|a[n..]| - 1] == a[|a| - 1];
      MarksJoin(d, a[n..], b);
    }
  }

  /** Text that opens nothing and holds no placeholder. */
  predicate Plain(t: string) { forall i | 0 <= i < |t| :: PlainChar(t[i]) }

  predicate PlainChar(c: char)
  {
    c != '\'' && c != '"' && c != '`' && c != '[' && c != '-' && c != '/' && c != '?'
  }

  lemma {:induction false} PlainIsOutside(t: string)
    requires Plain(t)
    ensures Scan(Outside, t) == Outside && Marks(Outside, t) == []
    decreases |t|
  {
    if t != "" {
      assert PlainChar(t[0]);
      assert Next(Outside, t) == (Outside, 1);
      PlainIsOutside(t[1..]);
    }
  }

  lemma {:induction false} DigitRunOf(d: string, rest: string)
    requires (forall i | 0 <= i < |d| :: IsDigit(d[i])) && (rest != "" ==> !IsDigit(rest[0]))
    ensures DigitRun(d + rest) == |d|
  {
    if d == "" {
      assert d + rest == rest;
    } else {
      DigitRunOf(d[1..], rest);
      assert (d + rest)[1..] == d[1..] + rest;
    }
  }

  /** A `?` with its digits, and whatever follows them. */
  lemma MarkAndRest(digits: string, rest: string)
    requires (forall i | 0 <= i < |digits| :: IsDigit(digits[i])) && (rest != "" ==> !IsDigit(rest[0]))
    ensures Marks(Outside, "?" + digits + rest) == [ToNat(digits)] + Marks(Outside, rest)
    ensures Scan(Outside, "?" + digits + rest) == Scan(Outside, rest)
  {
    var t := "?" + digits + rest;
    assert t[1..] == digits + rest;
    DigitRunOf(digits, rest);
    assert (digits + rest)[..|digits|] == digits && (digits + rest)[|digits|..] == rest;
    assert Next(Outside, t) == (Outside, 1);
    assert forall i | 0 <= i < |digits| :: PlainChar(digits[i]);
    PlainIsOutside(digits);
    ScanJoin(Outside, digits, rest);
  }

  // ------------------------------------------------------- a template's own text

  predicate IsIdentChar(c: char)
  {
    ('0' <= c <= '9') || ('A' <= c <= 'Z') || ('a' <= c <= 'z') || c == '_' || c == '$' || c as int > 127
  }

  /** A placeholder the text writes itself: `?`, or a sigil that starts a name. */
  predicate OwnHere(t: string, before: Option<char>)
    requires t != ""
  {
    || t[0] == '?'
    || (&& (t[0] == ':' || t[0] == '@' || t[0] == '#' || t[0] == '$')
        && |t| > 1 && IsIdentChar(t[1])
        && (t[0] == '$' && before.Some? ==> !IsIdentChar(before.value)))
  }

  predicate Own(c: Close, t: string, before: Option<char>)
    decreases |t|
  {
    t != "" &&
    ((c == Outside && OwnHere(t, before)) ||
     Own(Next(c, t).0, t[Next(c, t).1..], Some(t[Next(c, t).1 - 1])))
  }

  lemma {:induction false} NoOwnNoMarks(c: Close, t: string, before: Option<char>)
    requires !Own(c, t, before)
    ensures Marks(c, t) == []
    decreases |t|
  {
    if t != "" { NoOwnNoMarks(Next(c, t).0, t[Next(c, t).1..], Some(t[Next(c, t).1 - 1])); }
  }

  /** What a template has to be: cooked, closed at every value, without placeholders, at worst in a line comment at its end. */
  predicate Usable(strings: seq<Option<string>>)
  {
    && (forall s | 0 <= s < |strings| :: strings[s].Some? && !Own(Outside, strings[s].value, None))
    && (forall s | 0 <= s < |strings| - 1 :: Scan(Outside, strings[s].value) == Outside)
    && (strings != [] ==> var end := Scan(Outside, strings[|strings| - 1].value); end == Outside || end == Line)
  }

  datatype Verdict = Refused | Accepted(inLineComment: bool)

  /** One pass over one text; None when it holds a placeholder of its own. */
  method ScanText(text: string) returns (r: Option<Close>)
    ensures r == None <==> Own(Outside, text, None)
    ensures r.Some? ==> r.value == Scan(Outside, text)
  {
    var close, i := Outside, 0;
    while i < |text|
      invariant 0 <= i <= |text|
      invariant Scan(Outside, text) == Scan(close, text[i..])
      invariant Own(Outside, text, None) == Own(close, text[i..], if i == 0 then None else Some(text[i - 1]))
    {
      ghost var t := text[i..];
      var c, pair := text[i], i + 1 < |text|;
      assert t[0] == c && (pair ==> t[1] == text[i + 1]);
      ghost var before := if i == 0 then None else Some(text[i - 1]);
      if close == Outside {
        if c == '?' { return None; }
        if c == ':' || c == '@' || c == '#' || c == '$' {
          if pair && IsIdentChar(text[i + 1]) && (c != '$' || i == 0 || !IsIdentChar(text[i - 1])) { return None; }
        }
        assert !OwnHere(t, before);
      }
      ghost var next := Next(close, t);
      match close {
        case Outside =>
          if c == '\'' || c == '"' || c == '`' {
            close := Quoted(c);
          } else if c == '[' {
            close := Quoted(']');
          } else if c == '-' && pair && text[i + 1] == '-' {
            close, i := Line, i + 1;
          } else if c == '/' && pair && text[i + 1] == '*' {
            close, i := Block, i + 1;
          }
        case Quoted(end) => if c == end { close := Outside; }
        case Line => if c == '\n' { close := Outside; }
        case Block => if c == '*' && pair && text[i + 1] == '/' { close, i := Outside, i + 1; }
      }
      i := i + 1;
      assert close == next.0 && text[i..] == t[next.1..] && text[i - 1] == t[next.1 - 1];
    }
    r := Some(close);
  }

  /** Whether a template is refused, or else whether it ends inside a line comment. */
  method TemplateError(strings: seq<Option<string>>) returns (r: Verdict)
    requires strings != []
    ensures r.Accepted? <==> Usable(strings)
    ensures r.Accepted? ==> (r.inLineComment <==> Scan(Outside, strings[|strings| - 1].value) == Line)
  {
    var close := Outside;
    for s := 0 to |strings|
      invariant forall k | 0 <= k < s :: strings[k].Some? && !Own(Outside, strings[k].value, None)
      invariant forall k | 0 <= k < s - 1 :: Scan(Outside, strings[k].value) == Outside
      invariant close == if s == 0 then Outside else Scan(Outside, strings[s - 1].value)
    {
      if strings[s] == None || close != Outside { return Refused; }
      var scanned := ScanText(strings[s].value);
      if scanned == None { return Refused; }
      close := scanned.value;
    }
    r := if close == Outside then Accepted(false) else if close == Line then Accepted(true) else Refused;
  }
}
