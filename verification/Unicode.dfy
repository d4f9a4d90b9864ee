/**
  * Text as the wire carries it: UTF-8 bytes on one side, UTF-16 code units on
  * the other. The grammar is section 4 of RFC 3629, the two encodings section 3
  * of RFC 3629 and section 2.1 of RFC 2781.
  */
module Unicode {
  import opened Basics

  type Byte = x: nat | x < 0x100
  type Unit = x: nat | x < 0x10000
  type Scalar = x: nat | x < 0xD800 || 0xE000 <= x < 0x110000

  const REPLACEMENT: Scalar := 0xFFFD

  // ---------------------------------------------------------------- the encodings

  function Utf8(cp: Scalar): seq<Byte>
  {
    if cp < 0x80 then [cp]
    else if cp < 0x800 then [0xC0 + cp / 64, 0x80 + cp % 64]
    else if cp < 0x10000 then [0xE0 + cp / 4096, 0x80 + cp / 64 % 64, 0x80 + cp % 64]
    else [0xF0 + cp / 262144, 0x80 + cp / 4096 % 64, 0x80 + cp / 64 % 64, 0x80 + cp % 64]
  }

  function Utf16(cp: Scalar): seq<Unit>
  {
    if cp < 0x10000 then [cp]
    else [0xD800 + (cp - 0x10000) / 1024, 0xDC00 + (cp - 0x10000) % 1024]
  }

  function Bytes(cps: seq<Scalar>): seq<Byte> { if cps == [] then [] else Utf8(cps[0]) + Bytes(cps[1..]) }

  function Units(cps: seq<Scalar>): seq<Unit> { if cps == [] then [] else Utf16(cps[0]) + Units(cps[1..]) }

  // ------------------------------------------------------------------ the grammar

  predicate Tail(b: Byte) { 0x80 <= b <= 0xBF }

  predicate Char2(b: seq<Byte>) { |b| >= 2 && 0xC2 <= b[0] <= 0xDF && Tail(b[1]) }

  /** The first two bytes of three: no overlong form, no surrogate. */
  predicate Start3(b0: Byte, b1: Byte)
  {
    || (b0 == 0xE0 && 0xA0 <= b1 <= 0xBF)
    || (0xE1 <= b0 <= 0xEC && Tail(b1))
    || (b0 == 0xED && 0x80 <= b1 <= 0x9F)
    || (0xEE <= b0 <= 0xEF && Tail(b1))
  }

  predicate Char3(b: seq<Byte>) { |b| >= 3 && Start3(b[0], b[1]) && Tail(b[2]) }

  /** The first two bytes of four: no overlong form, nothing above U+10FFFF. */
  predicate Start4(b0: Byte, b1: Byte)
  {
    || (b0 == 0xF0 && 0x90 <= b1 <= 0xBF)
    || (0xF1 <= b0 <= 0xF3 && Tail(b1))
    || (b0 == 0xF4 && 0x80 <= b1 <= 0x8F)
  }

  predicate Char4(b: seq<Byte>) { |b| >= 4 && Start4(b[0], b[1]) && Tail(b[2]) && Tail(b[3]) }

  /** How many bytes the first character takes; 0 when no character starts here. */
  function Lead(b: seq<Byte>): (n: nat)
    ensures n <= |b|
  {
    if b == [] then 0
    else if b[0] < 0x80 then 1
    else if Char2(b) then 2
    else if Char3(b) then 3
    else if Char4(b) then 4
    else 0
  }

  predicate WellFormed(b: seq<Byte>)
    decreases |b|
  {
    b == [] || (Lead(b) > 0 && WellFormed(b[Lead(b)..]))
  }

  /** The first character's value. */
  function First(b: seq<Byte>): Scalar
    requires Lead(b) > 0
  {
    match Lead(b)
    case 1 => b[0]
    case 2 => Join(b[0] - 0xC0, b[1])
    case 3 => Join(Join(b[0] - 0xE0, b[1]), b[2])
    case _ => Join(Join(Join(b[0] - 0xF0, b[1]), b[2]), b[3])
  }

  /** Six more bits, from a tail byte. */
  function Join(high: nat, tail: Byte): (r: nat)
    requires Tail(tail)
    ensures r / 64 == high && r % 64 == tail - 0x80
  {
    var low: nat := tail - 0x80;
    high * 64 + low
  }

  function Scalars(b: seq<Byte>): seq<Scalar>
    requires WellFormed(b)
    decreases |b|
  {
    if b == [] then [] else [First(b)] + Scalars(b[Lead(b)..])
  }

  lemma Digits(cp: nat)
    ensures cp / 4096 == cp / 64 / 64 && cp / 262144 == cp / 64 / 64 / 64
    ensures cp == (cp / 64) * 64 + cp % 64
  {
  }

  lemma FirstEncodes(b: seq<Byte>)
    requires Lead(b) > 0
    ensures Utf8(First(b)) == b[..Lead(b)]
  {
    var cp := First(b);
    Digits(cp);
    match Lead(b)
    case 1 =>
    case 2 =>
    case 3 => First3Encodes(b);
    case _ => First4Encodes(b);
  }

  lemma First3Encodes(b: seq<Byte>)
    requires Lead(b) == 3
    ensures 0x800 <= First(b) < 0x10000 && Utf8(First(b)) == b[..3]
  {
    Digits(First(b));
    assert First(b) / 64 == Join(b[0] - 0xE0, b[1]);
  }

  lemma First4Encodes(b: seq<Byte>)
    requires Lead(b) == 4
    ensures 0x10000 <= First(b) && Utf8(First(b)) == b[..4]
  {
    Digits(First(b));
    Digits(First(b) / 64);
    assert First(b) / 64 == Join(Join(b[0] - 0xF0, b[1]), b[2]);
    assert First(b) / 64 / 64 == Join(b[0] - 0xF0, b[1]);
  }

  lemma LeadOfEncoded(cp: Scalar, rest: seq<Byte>)
    ensures var b := Utf8(cp) + rest;
            Lead(b) == |Utf8(cp)| && First(b) == cp && b[Lead(b)..] == rest
  {
    var u := Utf8(cp);
    var b := u + rest;
    assert forall i | 0 <= i < |u| :: b[i] == u[i];
    EncodedIsChar(cp, rest);
    assert b[|u|..] == rest;
  }

  lemma EncodedIsChar(cp: Scalar, rest: seq<Byte>)
    ensures var b := Utf8(cp) + rest; Lead(b) == |Utf8(cp)| && First(b) == cp
  {
    var b := Utf8(cp) + rest;
    Digits(cp);
    Digits(cp / 64);
    if 0x800 <= cp < 0x10000 {
      assert b[0] == 0xE0 + cp / 4096 && b[1] == 0x80 + cp / 64 % 64 && b[2] == 0x80 + cp % 64;
      assert Join(cp / 4096, b[1]) == cp / 64;
    } else if 0x10000 <= cp {
      assert b[0] == 0xF0 + cp / 262144 && b[1] == 0x80 + cp / 4096 % 64 && b[2] == 0x80 + cp / 64 % 64 && b[3] == 0x80 + cp % 64;
      assert Join(cp / 262144, b[1]) == cp / 4096;
      assert Join(cp / 4096, b[2]) == cp / 64;
    }
  }

  /** The grammar describes exactly the encodings of scalar values, one way each. */
  lemma {:induction false} ScalarsAreEncoded(b: seq<Byte>)
    requires WellFormed(b)
    ensures Bytes(Scalars(b)) == b
    decreases |b|
  {
    if b != [] {
      var n := Lead(b);
      var cp, rest := First(b), b[n..];
      FirstEncodes(b);
      assert b[..n] + rest == b;
      ScalarsAreEncoded(rest);
      BytesCons(cp, Scalars(rest));
      assert Scalars(b) == [cp] + Scalars(rest);
    }
  }

  lemma {:induction false} BytesCons(cp: Scalar, cps: seq<Scalar>)
    ensures Bytes([cp] + cps) == Utf8(cp) + Bytes(cps)
  {
    assert ([cp] + cps)[1..] == cps;
  }

  lemma {:induction false} UnitsCons(cp: Scalar, cps: seq<Scalar>)
    ensures Units([cp] + cps) == Utf16(cp) + Units(cps)
  {
    assert ([cp] + cps)[1..] == cps;
  }

  lemma {:induction false} EncodedIsWellFormed(cps: seq<Scalar>)
    ensures WellFormed(Bytes(cps)) && Scalars(Bytes(cps)) == cps
  {
    if cps != [] {
      EncodedIsWellFormed(cps[1..]);
      LeadOfEncoded(cps[0], Bytes(cps[1..]));
    }
  }

  // ------------------------------------------------------------- units to bytes

  predicate High(u: Unit) { 0xD800 <= u < 0xDC00 }

  predicate Low(u: Unit) { 0xDC00 <= u < 0xE000 }

  /** What `TextEncoder` reads: a pair is one scalar, a surrogate without its half the replacement character. */
  function Paired(units: seq<Unit>): seq<Scalar>
  {
    if units == [] then []
    else if High(units[0]) && |units| > 1 && Low(units[1]) then
      [0x10000 + (units[0] - 0xD800) * 1024 + (units[1] - 0xDC00)] + Paired(units[2..])
    else [if High(units[0]) || Low(units[0]) then REPLACEMENT else units[0]] + Paired(units[1..])
  }

  /** No surrogate stands without its half. */
  predicate WellPaired(units: seq<Unit>)
  {
    units == []
    || (if High(units[0]) then |units| > 1 && Low(units[1]) && WellPaired(units[2..])
        else !Low(units[0]) && WellPaired(units[1..]))
  }

  function Encode(units: seq<Unit>): seq<Byte> { Bytes(Paired(units)) }

  lemma {:induction false} PairedUnits(cps: seq<Scalar>)
    ensures Paired(Units(cps)) == cps && WellPaired(Units(cps))
  {
    if cps != [] {
      PairedUnits(cps[1..]);
      var rest := Units(cps[1..]);
      if cps[0] < 0x10000 {
        assert Units(cps)[1..] == rest;
      } else {
        assert Units(cps)[2..] == rest;
      }
    }
  }

  /** Units come back exactly when every surrogate has its half. */
  lemma {:induction false} UnitsPaired(units: seq<Unit>)
    ensures Units(Paired(units)) == units <==> WellPaired(units)
    ensures |Units(Paired(units))| == |units|
    ensures forall i | 0 <= i < |units| && !High(units[i]) && !Low(units[i]) :: Units(Paired(units))[i] == units[i]
  {
    if units != [] {
      var cps := Paired(units);
      if High(units[0]) && |units| > 1 && Low(units[1]) {
        UnitsPaired(units[2..]);
        assert cps[1..] == Paired(units[2..]);
        assert units == units[..2] + units[2..];
        assert Units(cps) == units[..2] + Units(Paired(units[2..]));
      } else {
        UnitsPaired(units[1..]);
        assert cps[1..] == Paired(units[1..]);
        assert Utf16(cps[0]) == [cps[0]];
        assert Units(cps) == [cps[0]] + Units(Paired(units[1..]));
        assert units == [units[0]] + units[1..];
      }
    }
  }

  /** The room the writer keeps for a text: three bytes for each unit always do. */
  lemma {:induction false} EncodeFits(units: seq<Unit>)
    ensures |Encode(units)| <= 3 * |units|
  {
    if units != [] {
      if High(units[0]) && |units| > 1 && Low(units[1]) { EncodeFits(units[2..]); } else { EncodeFits(units[1..]); }
      var cps := Paired(units);
      assert Bytes(cps) == Utf8(cps[0]) + Bytes(cps[1..]);
    }
  }

  /** What is decoded from bytes encodes to the same bytes. */
  lemma DecodedEncodes(b: seq<Byte>)
    requires WellFormed(b)
    ensures Encode(Units(Scalars(b))) == b
  {
    PairedUnits(Scalars(b));
    ScalarsAreEncoded(b);
  }

  /** Encoded text is well formed, and decodes to itself exactly when every surrogate has its half. */
  lemma EncodedDecodes(units: seq<Unit>)
    ensures WellFormed(Encode(units))
    ensures Units(Scalars(Encode(units))) == Units(Paired(units))
    ensures Units(Scalars(Encode(units))) == units <==> WellPaired(units)
  {
    EncodedIsWellFormed(Paired(units));
    UnitsPaired(units);
  }

  /** A surrogate without its half beside it. */
  predicate Lone(units: seq<Unit>, i: nat)
    requires i < |units|
  {
    || (High(units[i]) && !(i + 1 < |units| && Low(units[i + 1])))
    || (Low(units[i]) && !(i > 0 && High(units[i - 1])))
  }

  /** Unit by unit: encoding and decoding replaces exactly the lone surrogates, by U+FFFD. */
  lemma {:induction false} LoneIsReplaced(units: seq<Unit>, i: nat)
    requires i < |units|
    ensures |Units(Paired(units))| == |units|
    ensures Units(Paired(units))[i] == if Lone(units, i) then 0xFFFD else units[i]
  {
    UnitsPaired(units);
    var cps := Paired(units);
    if High(units[0]) && |units| > 1 && Low(units[1]) {
      assert cps[1..] == Paired(units[2..]);
      assert Units(cps) == units[..2] + Units(Paired(units[2..]));
      if i > 1 { LoneIsReplaced(units[2..], i - 2); }
    } else {
      assert cps[1..] == Paired(units[1..]);
      assert Units(cps) == [cps[0]] + Units(Paired(units[1..]));
      if i > 0 { LoneIsReplaced(units[1..], i - 1); }
    }
  }

  /** Section 7 of RFC 3629: a capital, Greek, Korean and a Chinese character outside the first plane. */
  lemma Examples()
    ensures Encode([0x41]) == [0x41] && Encode([0x2262]) == [0xE2, 0x89, 0xA2] && Encode([0x0391]) == [0xCE, 0x91]
    ensures Encode([0xD55C]) == [0xED, 0x95, 0x9C] && Encode([0xD84C, 0xDFB4]) == [0xF0, 0xA3, 0x8E, 0xB4]
    ensures Encode([0xD84C]) == Encode([0xDFB4]) == [0xEF, 0xBF, 0xBD]
  {
    OneCharacter([0x41], 0x41);
    OneCharacter([0x2262], 0x2262);
    OneCharacter([0x0391], 0x0391);
    OneCharacter([0xD55C], 0xD55C);
    OneCharacter([0xD84C, 0xDFB4], 0x233B4);
    OneCharacter([0xD84C], 0xFFFD);
    OneCharacter([0xDFB4], 0xFFFD);
  }

  lemma OneCharacter(units: seq<Unit>, cp: Scalar)
    requires Paired(units) == [cp]
    ensures Encode(units) == Utf8(cp)
  {
    assert [cp][1..] == [];
    assert Bytes([]) == [];
  }

  lemma {:induction false} UnitsFit(b: seq<Byte>)
    requires WellFormed(b)
    ensures |Units(Scalars(b))| <= |b|
    decreases |b|
  {
    if b != [] {
      var cps, rest := Scalars(b), b[Lead(b)..];
      UnitsFit(rest);
      assert cps[1..] == Scalars(rest);
      assert Units(cps) == Utf16(cps[0]) + Units(Scalars(rest));
    }
  }

  // ------------------------------------------------------------ the short decoder

  const SHORT_TEXT := 32

  /** Six bits of each tail byte shifted in behind the lead byte's bits. */
  function Shifted(lead: nat, tails: seq<Byte>): nat
  {
    if tails == [] then lead else Shifted(lead, tails[..|tails| - 1]) * 64 + tails[|tails| - 1] % 64
  }

  predicate InRange(n: nat, cp: nat)
  {
    && (n == 2 ==> cp >= 0x800 && !(0xD800 <= cp < 0xE000))
    && (n == 3 ==> 0x10000 <= cp <= 0x10FFFF)
  }

  /** How many tail bytes the lead byte announces, and its own bits; None when it cannot start a character. */
  function LeadBits(c: Byte): Option<(nat, nat)>
  {
    if 0xC2 <= c < 0xE0 then Some((1, c % 32))
    else if 0xE0 <= c < 0xF0 then Some((2, c % 16))
    else if 0xF0 <= c < 0xF5 then Some((3, c % 8))
    else None
  }

  lemma ShiftedTails(lead: nat, tails: seq<Byte>)
    requires 1 <= |tails| <= 3 && forall i | 0 <= i < |tails| :: Tail(tails[i])
    ensures Shifted(lead, tails) ==
              match |tails|
              case 1 => Join(lead, tails[0])
              case 2 => Join(Join(lead, tails[0]), tails[1])
              case _ => Join(Join(Join(lead, tails[0]), tails[1]), tails[2])
  {
    var n := |tails|;
    assert Shifted(lead, tails[..n - 1]) * 64 + tails[n - 1] % 64 == Shifted(lead, tails);
    assert tails[n - 1] % 64 == tails[n - 1] - 0x80;
    if n > 1 { ShiftedTails(lead, tails[..n - 1]); }
  }

  predicate AllTails(b: seq<Byte>, n: nat) { n < |b| && forall i | 1 <= i <= n :: Tail(b[i]) }

  lemma Check1(b: seq<Byte>, lead: nat)
    requires b != [] && 0xC2 <= b[0] < 0xE0 && lead == b[0] - 0xC0
    ensures Lead(b) > 0 <==> AllTails(b, 1) && InRange(1, Shifted(lead, b[1..2]))
    ensures Lead(b) > 0 ==> Lead(b) == 2 && First(b) == Shifted(lead, b[1..2])
  {
    if AllTails(b, 1) {
      var tails := b[1..2];
      ShiftedTails(lead, tails);
      assert forall i | 0 <= i < 1 :: tails[i] == b[i + 1];
    }
  }

  lemma Check2(b: seq<Byte>, lead: nat)
    requires b != [] && 0xE0 <= b[0] < 0xF0 && lead == b[0] - 0xE0
    ensures Lead(b) > 0 <==> AllTails(b, 2) && InRange(2, Shifted(lead, b[1..3]))
    ensures Lead(b) > 0 ==> Lead(b) == 3 && First(b) == Shifted(lead, b[1..3])
  {
    if AllTails(b, 2) {
      var tails := b[1..3];
      ShiftedTails(lead, tails);
      assert forall i | 0 <= i < 2 :: tails[i] == b[i + 1];
      Range3(b, lead);
    }
  }

  lemma Check3(b: seq<Byte>, lead: nat)
    requires b != [] && 0xF0 <= b[0] < 0xF5 && lead == b[0] - 0xF0
    ensures Lead(b) > 0 <==> AllTails(b, 3) && InRange(3, Shifted(lead, b[1..4]))
    ensures Lead(b) > 0 ==> Lead(b) == 4 && First(b) == Shifted(lead, b[1..4])
  {
    if AllTails(b, 3) {
      var tails := b[1..4];
      ShiftedTails(lead, tails);
      assert forall i | 0 <= i < 3 :: tails[i] == b[i + 1];
      Range4(b, lead);
    }
  }

  /** The checks the decoder makes on a character of several bytes are the grammar's. */
  lemma ChecksAreTheGrammar(b: seq<Byte>, n: nat, lead: nat)
    requires b != [] && b[0] >= 0x80 && LeadBits(b[0]) == Some((n, lead))
    ensures Lead(b) > 0 <==> AllTails(b, n) && InRange(n, Shifted(lead, b[1..n + 1]))
    ensures Lead(b) > 0 ==> Lead(b) == n + 1 && First(b) == Shifted(lead, b[1..n + 1])
  {
    if n == 1 { Check1(b, lead); } else if n == 2 { Check2(b, lead); } else { Check3(b, lead); }
  }

  lemma Range3(b: seq<Byte>, lead: nat)
    requires AllTails(b, 2) && 0xE0 <= b[0] < 0xF0 && lead == b[0] - 0xE0
    ensures InRange(2, Join(Join(lead, b[1]), b[2])) <==> Start3(b[0], b[1])
  {
    var cp := Join(Join(lead, b[1]), b[2]);
    var t1: nat, t2: nat := b[1] - 0x80, b[2] - 0x80;
    assert cp == lead * 4096 + t1 * 64 + t2;
  }

  lemma Range4(b: seq<Byte>, lead: nat)
    requires AllTails(b, 3) && 0xF0 <= b[0] < 0xF5 && lead == b[0] - 0xF0
    ensures InRange(3, Join(Join(Join(lead, b[1]), b[2]), b[3])) <==> Start4(b[0], b[1])
  {
    var cp := Join(Join(Join(lead, b[1]), b[2]), b[3]);
    var t1: nat, t2: nat, t3: nat := b[1] - 0x80, b[2] - 0x80, b[3] - 0x80;
    assert cp == lead * 262144 + t1 * 4096 + t2 * 64 + t3;
  }

  /** The tail bytes' bits behind the lead byte's; None when one is missing or is not a tail byte. */
  method ReadTails(b: seq<Byte>, n: nat, lead: nat) returns (r: Option<nat>)
    ensures r.Some? <==> AllTails(b, n)
    ensures r.Some? ==> r.value == Shifted(lead, b[1..n + 1])
  {
    if n >= |b| { return None; }
    var cp: nat := lead;
    for j := 1 to n + 1
      invariant cp == Shifted(lead, b[1..j])
      invariant forall x | 1 <= x < j :: Tail(b[x])
    {
      var d := b[j];
      if d / 64 != 2 { return None; }
      assert b[1..j + 1][..j - 1] == b[1..j];
      cp := cp * 64 + d % 64;
    }
    r := Some(cp);
  }

  /** The character of several bytes at `i`, and how many follow its lead byte; None when there is none. */
  method ReadChar(u8: seq<Byte>, i: nat, end: nat) returns (r: Option<Scalar>, n: nat)
    requires i < end <= |u8| && u8[i] >= 0x80
    ensures r.Some? <==> Lead(u8[i..end]) > 0
    ensures r.Some? ==> Lead(u8[i..end]) == n + 1 && r.value == First(u8[i..end])
  {
    var bits := LeadBits(u8[i]);
    if bits == None { return None, 0; }
    n := bits.value.0;
    ChecksAreTheGrammar(u8[i..end], n, bits.value.1);
    var cp := ReadTails(u8[i..end], n, bits.value.1);
    if cp == None || !InRange(n, cp.value) { return None, n; }
    assert Lead(u8[i..end]) > 0;
    r := Some(cp.value);
  }

  method PutUnits(shortUnits: array<Unit>, k: nat, cp: Scalar) returns (next: nat)
    requires k + |Utf16(cp)| <= shortUnits.Length
    modifies shortUnits
    ensures next == k + |Utf16(cp)| && shortUnits[..next] == old(shortUnits[..k]) + Utf16(cp)
  {
    if cp < 0x10000 {
      shortUnits[k] := cp;
      return k + 1;
    }
    shortUnits[k] := 0xD7C0 + cp / 1024;
    shortUnits[k + 1] := 0xDC00 + cp % 1024;
    next := k + 2;
  }

  /** The character at `i`, put behind the first `k` units; 0 when there is none. */
  method PutChar(u8: seq<Byte>, i: nat, end: nat, shortUnits: array<Unit>, k: nat) returns (taken: nat, next: nat)
    requires i < end <= |u8| && k + (end - i) <= shortUnits.Length
    modifies shortUnits
    ensures taken == Lead(u8[i..end])
    ensures taken > 0 ==>
              && k <= next <= k + taken
              && shortUnits[..next] == old(shortUnits[..k]) + Utf16(First(u8[i..end]))
  {
    var c := u8[i];
    if c < 0x80 {
      shortUnits[k] := c;
      return 1, k + 1;
    }
    var cp, n := ReadChar(u8, i, end);
    if cp == None { return 0, k; }
    FirstEncodes(u8[i..end]);
    next := PutUnits(shortUnits, k, cp.value);
    taken := n + 1;
  }

  /**
    * Decodes a short text into the shared unit buffer, which it never outgrows.
    * None is left to the platform's decoder: the bytes are not well formed.
    */
  method ShortText(u8: seq<Byte>, start: nat, end: nat, shortUnits: array<Unit>) returns (r: Option<seq<Unit>>)
    requires start <= end <= |u8| && end - start <= SHORT_TEXT == shortUnits.Length
    modifies shortUnits
    ensures r.Some? <==> WellFormed(u8[start..end])
    ensures r.Some? ==> r.value == Units(Scalars(u8[start..end]))
  {
    var i, k := start, 0;
    ghost var all := u8[start..end];
    while i < end
      invariant start <= i <= end && 0 <= k <= i - start
      invariant Decoding(all, shortUnits[..k], u8[i..end])
    {
      ghost var done := shortUnits[..k];
      var taken, next := PutChar(u8, i, end, shortUnits, k);
      if taken == 0 { return None; }
      DecodingOne(all, done, u8[i..end]);
      assert u8[i..end][taken..] == u8[i + taken..end];
      i, k := i + taken, next;
    }
    assert u8[i..end] == [];
    r := Some(shortUnits[..k]);
  }

  /** `all` is well formed if what is left of it is, and then decodes to what is done and what is left. */
  predicate Decoding(all: seq<Byte>, done: seq<Unit>, rest: seq<Byte>)
  {
    && (WellFormed(all) <==> WellFormed(rest))
    && (WellFormed(all) ==> Units(Scalars(all)) == done + Units(Scalars(rest)))
  }

  lemma DecodingOne(all: seq<Byte>, done: seq<Unit>, rest: seq<Byte>)
    requires Decoding(all, done, rest) && Lead(rest) > 0
    ensures Decoding(all, done + Utf16(First(rest)), rest[Lead(rest)..])
  {
    if WellFormed(rest) {
      var cp, left := First(rest), rest[Lead(rest)..];
      assert Scalars(rest) == [cp] + Scalars(left);
      UnitsCons(cp, Scalars(left));
    }
  }
}
