/**
  * One value on the wire: a tag, and its bytes. Numbers are little-endian and
  * two's complement; a text or a blob carries its length. A double is the eight
  * bytes of its IEEE representation, never computed with here.
  */
module Wire {
  import opened Basics
  import opened Unicode

  datatype Cell =
    | Null
    | Int32(n: int)
    | Double(bits: seq<Byte>)
    | Text(utf8: seq<Byte>)
    | Blob(bytes: seq<Byte>)
    | Int64(n: int)

  const TWO31: int := 0x8000_0000
  const TWO32: int := 0x1_0000_0000
  const TWO63: int := 0x8000_0000_0000_0000
  const TWO64: int := 0x1_0000_0000_0000_0000

  /** What the tag can carry. */
  predicate Fits(c: Cell)
  {
    match c
    case Null => true
    case Int32(n) => -TWO31 <= n < TWO31
    case Double(bits) => |bits| == 8
    case Text(utf8) => |utf8| < TWO32
    case Blob(bytes) => |bytes| < TWO32
    case Int64(n) => -TWO63 <= n < TWO63
  }

  // --------------------------------------------------------------- little-endian

  function Power(k: nat): (r: nat)
    ensures r > 0
  {
    if k == 0 then 1 else 256 * Power(k - 1)
  }

  /** The low `k` bytes of `n`. */
  function Le(n: nat, k: nat): (r: seq<Byte>)
    ensures |r| == k
  {
    if k == 0 then [] else [n % 256] + Le(n / 256, k - 1)
  }

  function FromLe(b: seq<Byte>): nat
  {
    if b == [] then 0 else b[0] + 256 * FromLe(b[1..])
  }

  lemma {:induction false} FromLeBound(b: seq<Byte>)
    ensures FromLe(b) < Power(|b|)
  {
    if b != [] { FromLeBound(b[1..]); }
  }

  lemma {:induction false} LeRoundTrip(n: nat, k: nat)
    requires n < Power(k)
    ensures FromLe(Le(n, k)) == n
  {
    if k > 0 {
      LeRoundTrip(n / 256, k - 1);
      assert Le(n, k)[1..] == Le(n / 256, k - 1);
    }
  }

  lemma Powers()
    ensures Power(4) == TWO32 && Power(8) == TWO64
  {
    assert Power(4) == 256 * Power(3) && Power(3) == 256 * Power(2) && Power(2) == 256 * Power(1) && Power(1) == 256 * Power(0);
    assert Power(8) == 256 * Power(7) && Power(7) == 256 * Power(6) && Power(6) == 256 * Power(5) && Power(5) == 256 * Power(4);
  }

  function Signed(u: nat, modulus: int): int { if 2 * u >= modulus then u - modulus else u }

  function Unsigned(n: int, modulus: int): (r: int)
    requires modulus > 0
    ensures 0 <= r < modulus
  {
    n % modulus
  }

  lemma SignedRoundTrip(n: int)
    ensures -TWO31 <= n < TWO31 ==> Signed(Unsigned(n, TWO32), TWO32) == n
    ensures -TWO63 <= n < TWO63 ==> Signed(Unsigned(n, TWO64), TWO64) == n
  {
  }

  function SignedLe(n: int, k: nat): (r: seq<Byte>)
    ensures |r| == k
  {
    Le(Unsigned(n, Power(k)), k)
  }

  /** A 32-bit or 64-bit integer read back is the one written. */
  lemma IntRoundTrip(n: int)
    ensures -TWO31 <= n < TWO31 ==> Signed(FromLe(SignedLe(n, 4)), TWO32) == n
    ensures -TWO63 <= n < TWO63 ==> Signed(FromLe(SignedLe(n, 8)), TWO64) == n
  {
    Powers();
    LeRoundTrip(Unsigned(n, Power(4)), 4);
    LeRoundTrip(Unsigned(n, Power(8)), 8);
    SignedRoundTrip(n);
  }

  // -------------------------------------------------------------------- one value

  /** A length past 32 bits is written modulo them, as `setUint32` does. */
  function Sized(b: seq<Byte>): seq<Byte> { Le(|b|, 4) + b }

  function Written(c: Cell): (r: seq<Byte>)
    ensures r != []
  {
    match c
    case Null => [0]
    case Int32(n) => [1] + SignedLe(n, 4)
    case Double(bits) => [2] + bits
    case Text(utf8) => [3] + Sized(utf8)
    case Blob(bytes) => [4] + Sized(bytes)
    case Int64(n) => [5] + SignedLe(n, 8)
  }

  /** The value at the start of `b` and how many bytes it takes; None for an unknown tag, or bytes that end inside it. */
  function Read(b: seq<Byte>): (r: Option<(Cell, nat)>)
    ensures r.Some? ==> 0 < r.value.1 <= |b|
  {
    if b == [] then None
    else if b[0] == 0 then Some((Null, 1))
    else if b[0] == 1 then if |b| < 5 then None else Some((Int32(Signed(FromLe(b[1..5]), TWO32)), 5))
    else if b[0] == 2 then if |b| < 9 then None else Some((Double(b[1..9]), 9))
    else if b[0] == 5 then if |b| < 9 then None else Some((Int64(Signed(FromLe(b[1..9]), TWO64)), 9))
    else if b[0] == 3 || b[0] == 4 then
      if |b| < 5 then None
      else
        var end := 5 + FromLe(b[1..5]);
        if end > |b| then None
        else Some((if b[0] == 3 then Text(b[5..end]) else Blob(b[5..end]), end))
    else None
  }

  lemma SizedReads(tag: Byte, body: seq<Byte>, rest: seq<Byte>)
    requires |body| < TWO32
    ensures var b := [tag] + Sized(body) + rest;
            FromLe(b[1..5]) == |body| && b[5..5 + |body|] == body && b[5 + |body|..] == rest
  {
    var b := [tag] + Sized(body) + rest;
    Powers();
    LeRoundTrip(|body|, 4);
    assert b[1..5] == Le(|body|, 4);
  }

  /** A value that fits is read back, and nothing of what follows it. */
  lemma ReadWritten(c: Cell, rest: seq<Byte>)
    requires Fits(c)
    ensures Read(Written(c) + rest) == Some((c, |Written(c)|))
    ensures (Written(c) + rest)[|Written(c)|..] == rest
  {
    var b := Written(c) + rest;
    match c
    case Null =>
    case Int32(n) =>
      IntRoundTrip(n);
      assert b[1..5] == SignedLe(n, 4);
    case Double(bits) => assert b[1..9] == bits;
    case Text(utf8) => SizedReads(3, utf8, rest);
    case Blob(bytes) => SizedReads(4, bytes, rest);
    case Int64(n) =>
      IntRoundTrip(n);
      assert b[1..9] == SignedLe(n, 8);
  }

  /** The tags, a number's low byte first, and a text's or a blob's length before it. */
  lemma Layout()
    ensures Written(Null) == [0] && Written(Int32(0x01020304)) == [1, 4, 3, 2, 1] && Written(Int32(-2)) == [1, 254, 255, 255, 255]
    ensures forall bits: seq<Byte> :: Written(Double(bits)) == [2] + bits
    ensures Written(Text([65])) == [3, 1, 0, 0, 0, 65] && Written(Blob([65])) == [4, 1, 0, 0, 0, 65]
  {
    Powers();
  }

  lemma LongLayout()
    ensures Written(Int64(0x0102030405060708)) == [5, 8, 7, 6, 5, 4, 3, 2, 1]
  {
    Powers();
  }

  /** What is read is always a value that fits. */
  lemma ReadFits(b: seq<Byte>)
    ensures Read(b).Some? ==> Fits(Read(b).value.0)
  {
    Powers();
    if |b| >= 5 { FromLeBound(b[1..5]); }
    if |b| >= 9 { FromLeBound(b[1..9]); }
  }

  /** A value comes back if and only if it fits. */
  lemma ReadsBackIff(c: Cell, rest: seq<Byte>)
    ensures Read(Written(c) + rest).Some? && Read(Written(c) + rest).value.0 == c <==> Fits(c)
  {
    if Fits(c) {
      ReadWritten(c, rest);
    } else {
      ReadFits(Written(c) + rest);
    }
  }

  // ------------------------------------------------------------------ many values

  /** Values one after the other, each with a code that says where it ends. */
  function Joined<T>(code: T -> seq<Byte>, xs: seq<T>): seq<Byte>
  {
    if xs == [] then [] else code(xs[0]) + Joined(code, xs[1..])
  }

  function Split<T>(decode: seq<Byte> -> Option<(T, nat)>, b: seq<Byte>, n: nat): (r: Option<(seq<T>, nat)>)
    ensures r.Some? ==> |r.value.0| == n && r.value.1 <= |b|
  {
    if n == 0 then Some(([], 0))
    else
      var one := decode(b);
      if one == None || one.value.1 > |b| then None
      else
        var more := Split(decode, b[one.value.1..], n - 1);
        if more == None then None else Some(([one.value.0] + more.value.0, one.value.1 + more.value.1))
  }

  /** Whatever follows it, the code of `x` is read back as `x`. */
  ghost predicate Decodes<T(!new)>(code: T -> seq<Byte>, decode: seq<Byte> -> Option<(T, nat)>, x: T)
  {
    forall rest: seq<Byte> {:trigger code(x) + rest} :: decode(code(x) + rest) == Some((x, |code(x)|))
  }

  lemma {:induction false} JoinedSnoc<T>(code: T -> seq<Byte>, xs: seq<T>, x: T)
    ensures Joined(code, xs + [x]) == Joined(code, xs) + code(x)
  {
    if xs == [] {
      assert (xs + [x])[1..] == [];
    } else {
      JoinedSnoc(code, xs[1..], x);
      assert (xs + [x])[1..] == xs[1..] + [x];
    }
  }

  /** Values written one after the other are read back in order, wherever the reader stops and whatever follows. */
  lemma {:induction false} SplitJoined<T(!new)>(
    code: T -> seq<Byte>, decode: seq<Byte> -> Option<(T, nat)>, xs: seq<T>, n: nat, rest: seq<Byte>)
    requires n <= |xs| && forall x | x in xs :: Decodes(code, decode, x)
    ensures Split(decode, Joined(code, xs) + rest, n) == Some((xs[..n], |Joined(code, xs[..n])|))
    decreases n
  {
    if n > 0 {
      var first, others := xs[0], xs[1..];
      assert forall x | x in others :: x in xs;
      SplitJoined(code, decode, others, n - 1, rest);
      var tail := Joined(code, others) + rest;
      assert Joined(code, xs) + rest == code(first) + tail;
      assert Decodes(code, decode, first);
      assert (code(first) + tail)[|code(first)|..] == tail;
      assert xs[..n][1..] == others[..n - 1];
      assert xs[..n] == [first] + others[..n - 1];
    }
  }

  function AllWritten(cells: seq<Cell>): seq<Byte> { Joined(Written, cells) }

  lemma AllWrittenSnoc(cells: seq<Cell>, c: Cell)
    ensures AllWritten(cells + [c]) == AllWritten(cells) + Written(c)
  {
    JoinedSnoc(Written, cells, c);
  }

  function ReadMany(b: seq<Byte>, n: nat): Option<(seq<Cell>, nat)> { Split(Read, b, n) }

  /** The values of a block, in order, whatever follows them. */
  lemma ManyRoundTrip(cells: seq<Cell>, n: nat, rest: seq<Byte>)
    requires n <= |cells| && forall c | c in cells :: Fits(c)
    ensures ReadMany(AllWritten(cells) + rest, n) == Some((cells[..n], |AllWritten(cells[..n])|))
  {
    forall c | c in cells
      ensures Decodes(Written, Read, c)
    {
      WrittenDecodes(c);
    }
    SplitJoined(Written, Read, cells, n, rest);
  }

  lemma WrittenDecodes(c: Cell)
    requires Fits(c)
    ensures Decodes(Written, Read, c)
  {
    forall rest: seq<Byte>
      ensures Read(Written(c) + rest) == Some((c, |Written(c)|))
    {
      ReadWritten(c, rest);
    }
  }
}
